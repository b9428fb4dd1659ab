/**
 * The application state holder: the selected input mode, the transcript, the
 * current summary, the loading flag and the error banner, and the handlers
 * that move between them. The summarisation service is outside the model:
 * each request is recorded in `requests`, and its outcome is supplied by the
 * caller of the handler.
 */
module Orchestrator {
  import opened Types
  import Text

  const EmptyTranscriptMessage: string := "Transcript is empty. Please provide a transcript to summarize."
  const UnknownErrorMessage: string := "An unknown error occurred during summarization."

  /**
   * How a request to the summarisation service ends: with a summary, or by
   * throwing; `message` is the message of a thrown `Error`, and None stands
   * for a thrown value that is not an `Error`.
   */
  datatype Outcome = Succeeded(summary: Summary) | Failed(message: Option<string>)

  /**
   * The error banner text for a failed request: the fixed unknown-error text
   * only for a thrown non-`Error` (or an `Error` carrying that very text), and
   * empty only for an `Error` with an empty message.
   */
  function FailureMessage(message: Option<string>): (r: string)
    ensures r == UnknownErrorMessage <==> message == None || message == Some(UnknownErrorMessage)
    ensures r == "" <==> message == Some("")
  {
    match message
    case Some(m) => m
    case None => UnknownErrorMessage
  }

  /** The parts of the page `App` renders. */
  datatype View = InputPanel | LoaderPanel | ErrorBanner | SummaryPanel

  /**
   * What the page shows: the input panel only while there is no summary and
   * nothing is loading, the loader while loading, the banner for a non-empty
   * error, and the summary panel when there is a summary.
   */
  function Views(summary: Option<Summary>, isLoading: bool, error: Option<string>): (r: set<View>)
    ensures InputPanel in r <==> summary.None? && !isLoading
    ensures LoaderPanel in r <==> isLoading
    ensures ErrorBanner in r <==> error.Some? && error.value != ""
    ensures SummaryPanel in r <==> summary.Some?
    ensures InputPanel in r ==> LoaderPanel !in r && SummaryPanel !in r
  {
    (if summary.None? && !isLoading then {InputPanel} else {})
    + (if isLoading then {LoaderPanel} else {})
    + (if error.Some? && error.value != "" then {ErrorBanner} else {})
    + (if summary.Some? then {SummaryPanel} else {})
  }

  /** The `isSummarizeDisabled` flag of the input panel's button. */
  function SummarizeDisabled(transcript: string, isLoading: bool): (r: bool)
    ensures r <==> Text.IsBlank(transcript) || isLoading
  {
    Text.TrimsToEmpty(transcript) || isLoading
  }

  class App {
    var inputMode: InputMode
    var transcript: string
    var summary: Option<Summary>
    var isLoading: bool
    var error: Option<string>
    /** The transcripts sent to the summarisation service, oldest first. */
    var requests: seq<string>

    constructor ()
      ensures inputMode == Record && transcript == "" && summary == None
      ensures !isLoading && error == None && requests == []
    {
      inputMode := Record;
      transcript := "";
      summary := None;
      isLoading := false;
      error := None;
      requests := [];
    }

    function CurrentViews(): set<View>
      reads this
    {
      Views(summary, isLoading, error)
    }

    /** `setInputMode`: switching tabs changes nothing else. */
    method SetInputMode(mode: InputMode)
      modifies this
      ensures inputMode == mode
      ensures transcript == old(transcript) && summary == old(summary)
      ensures isLoading == old(isLoading) && error == old(error) && requests == old(requests)
    {
      inputMode := mode;
    }

    /** `setTranscript`, as the recorder and the paste box call it. */
    method SetTranscript(text: string)
      modifies this
      ensures transcript == text
      ensures inputMode == old(inputMode) && summary == old(summary)
      ensures isLoading == old(isLoading) && error == old(error) && requests == old(requests)
    {
      transcript := text;
    }

    /**
     * `handleSummarize` up to the `await`. A whitespace-only transcript only
     * sets the empty-transcript error and sends nothing; otherwise the error
     * and any earlier summary are cleared, loading starts, and one request
     * carrying the transcript is sent.
     */
    method BeginSummarize() returns (sent: bool)
      modifies this
      ensures sent <==> !Text.IsBlank(old(transcript))
      ensures transcript == old(transcript) && inputMode == old(inputMode)
      ensures !sent ==>
        && error == Some(EmptyTranscriptMessage)
        && summary == old(summary) && isLoading == old(isLoading) && requests == old(requests)
      ensures sent ==>
        && error == None && isLoading && summary == None
        && requests == old(requests) + [transcript]
    {
      if Text.TrimsToEmpty(transcript) {
        error := Some(EmptyTranscriptMessage);
        return false;
      }
      error := None;
      isLoading := true;
      summary := None;
      requests := requests + [transcript];
      sent := true;
    }

    /**
     * `handleSummarize` after the `await`: the summary on success, the
     * failure's message on failure; loading ends either way.
     */
    method CompleteSummarize(outcome: Outcome)
      modifies this
      ensures !isLoading
      ensures transcript == old(transcript) && inputMode == old(inputMode) && requests == old(requests)
      ensures outcome.Succeeded? ==> summary == Some(outcome.summary) && error == old(error)
      ensures outcome.Failed? ==> error == Some(FailureMessage(outcome.message)) && summary == old(summary)
    {
      match outcome {
        case Succeeded(result) =>
          summary := Some(result);
        case Failed(message) =>
          error := Some(FailureMessage(message));
      }
      isLoading := false;
    }

    /**
     * `handleSummarize` as a whole, with `outcome` standing for how the one
     * request ends. A rejected transcript changes only the error. Otherwise
     * exactly one request is sent; a success leaves the new summary and no
     * error, a failure leaves its message and no summary; loading is off
     * afterwards and the transcript is never changed.
     */
    method HandleSummarize(outcome: Outcome)
      modifies this
      ensures transcript == old(transcript) && inputMode == old(inputMode)
      ensures Text.IsBlank(old(transcript)) ==>
        && error == Some(EmptyTranscriptMessage)
        && summary == old(summary) && isLoading == old(isLoading) && requests == old(requests)
      ensures !Text.IsBlank(old(transcript)) ==>
        && requests == old(requests) + [old(transcript)] && !isLoading
        && (outcome.Succeeded? ==> summary == Some(outcome.summary) && error == None)
        && (outcome.Failed? ==> summary == None && error == Some(FailureMessage(outcome.message)))
    {
      var sent := BeginSummarize();
      if !sent {
        return;
      }
      CompleteSummarize(outcome);
    }

    /**
     * `handleReset`: back to an empty transcript with no summary, no error
     * and nothing loading; the input mode is kept. Applied twice, it ends in
     * the same state as once.
     */
    method HandleReset()
      modifies this
      ensures transcript == "" && summary == None && error == None && !isLoading
      ensures inputMode == old(inputMode) && requests == old(requests)
      ensures CurrentViews() == {InputPanel}
    {
      transcript := "";
      summary := None;
      error := None;
      isLoading := false;
    }
  }

  /**
   * After a failed request the input panel is back, with no summary; the
   * banner shows unless the thrown `Error` had an empty message.
   */
  lemma FailureViews(message: Option<string>)
    ensures Views(None, false, Some(FailureMessage(message)))
            == if message == Some("") then {InputPanel} else {InputPanel, ErrorBanner}
  {
  }

  /**
   * While the input panel is shown nothing is loading, so its button is
   * enabled exactly when the transcript has a character that is not
   * whitespace.
   */
  lemma SummarizeButtonEnabled(transcript: string, summary: Option<Summary>, isLoading: bool, error: Option<string>)
    requires InputPanel in Views(summary, isLoading, error)
    ensures !SummarizeDisabled(transcript, isLoading) <==> exists i :: 0 <= i < |transcript| && !Text.IsWhitespace(transcript[i])
  {
  }
}
