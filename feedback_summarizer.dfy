/** The feedback tool: pasted customer feedback in, three thematic lists
    out, saved in the `feedback` slot. */
module FeedbackTool {
  import opened Types
  import opened Json
  import opened Strings
  import opened Records
  import opened Storage
  import opened GeminiService

  const EmptyFeedbackMessage := "Please enter some customer feedback."

  /** The object saved in the slot: `{ feedbackText, summary }`. */
  function SavedState(feedbackText: string, summary: FeedbackSummary): Json {
    JObj(map["feedbackText" := JStr(feedbackText), "summary" := EncodeSummary(summary)])
  }

  /** `savedState.feedbackText || ''` */
  function RestoredText(saved: Json): string {
    FieldOr(saved, "feedbackText", DecodeString, "")
  }

  /** `savedState.summary || null` */
  function RestoredSummary(saved: Json): Option<FeedbackSummary> {
    FieldOr(saved, "summary", j => Some(DecodeSummary(j)), None)
  }

  /** What a successful summary saves is what a later restore reads back,
      provided the store could write it. */
  lemma SaveThenRestore(cell: Cell, readFails: bool, feedbackText: string, summary: FeedbackSummary)
    ensures var saved := Loaded(Saved(cell, readFails, false, Tab.Feedback,
                                      SavedState(feedbackText, summary)), false, Tab.Feedback);
            && saved.Some?
            && RestoredText(saved.value) == feedbackText
            && RestoredSummary(saved.value) == Some(summary)
  {
    SummaryRoundTrip(summary);
  }

  /** The component's state. */
  class FeedbackSummarizer {
    var feedbackText: string
    var summary: Option<FeedbackSummary>
    var isLoading: bool
    var error: Option<string>

    constructor ()
      ensures feedbackText == "" && summary == None && !isLoading && error == None
    {
      feedbackText := "";
      summary := None;
      isLoading := false;
      error := None;
    }

    /** The mount effect: a saved slot replaces the text and the summary,
        each missing or falsy field falling back to its default; with no
        slot nothing changes. */
    method Restore(store: Store)
      modifies this
      ensures var saved := Loaded(store.cell, store.readFails, Tab.Feedback);
              if saved.Some? then
                feedbackText == RestoredText(saved.value) && summary == RestoredSummary(saved.value)
              else
                feedbackText == old(feedbackText) && summary == old(summary)
      ensures isLoading == old(isLoading) && error == old(error)
    {
      var saved := store.LoadStateForTab(Tab.Feedback);
      if saved.Some? {
        feedbackText := RestoredText(saved.value);
        summary := RestoredSummary(saved.value);
      }
    }

    /** `handleGenerate` up to the request: blank feedback only sets the
        error; otherwise loading starts with the error and the old summary
        cleared. */
    method Start() returns (proceed: bool)
      modifies this
      ensures proceed <==> !IsBlank(feedbackText)
      ensures feedbackText == old(feedbackText)
      ensures !proceed ==> error == Some(EmptyFeedbackMessage) && summary == old(summary) && isLoading == old(isLoading)
      ensures proceed ==> isLoading && error == None && summary == None
    {
      if IsBlank(feedbackText) {
        error := Some(EmptyFeedbackMessage);
        return false;
      }
      isLoading := true;
      error := None;
      summary := None;
      proceed := true;
    }

    /** `handleGenerate` after the request: a result is shown and saved; a
        failure shows its message and saves nothing; loading always ends. */
    method Finish(outcome: Outcome<FeedbackSummary>, store: Store)
      modifies this, store
      ensures !isLoading && feedbackText == old(feedbackText)
      ensures store.readFails == old(store.readFails) && store.writeFails == old(store.writeFails)
      ensures outcome.Returned? ==>
                && summary == Some(outcome.value) && error == old(error)
                && store.cell == Saved(old(store.cell), store.readFails, store.writeFails, Tab.Feedback,
                                       SavedState(feedbackText, outcome.value))
      ensures outcome.Threw? ==>
                && summary == old(summary) && error == Some(CaughtMessage(outcome.thrown))
                && store.cell == old(store.cell)
    {
      match outcome {
        case Returned(result) =>
          summary := Some(result);
          store.SaveStateForTab(Tab.Feedback, SavedState(feedbackText, result));
        case Threw(t) =>
          error := Some(CaughtMessage(t));
      }
      isLoading := false;
    }

    /** The whole `handleGenerate`, with the model's reply given by
        `gateway`. */
    method HandleGenerate(gateway: JsonRequest -> Outcome<FeedbackSummary>, store: Store)
      modifies this, store
      ensures feedbackText == old(feedbackText)
      ensures store.readFails == old(store.readFails) && store.writeFails == old(store.writeFails)
      ensures IsBlank(feedbackText) ==>
                && error == Some(EmptyFeedbackMessage) && summary == old(summary) && isLoading == old(isLoading)
                && store.cell == old(store.cell)
      ensures !IsBlank(feedbackText) ==>
                var r := SummarizeFeedback(feedbackText, gateway);
                && !isLoading
                && (r.Returned? ==>
                      && summary == Some(r.value) && error == None
                      && store.cell == Saved(old(store.cell), store.readFails, store.writeFails, Tab.Feedback,
                                             SavedState(feedbackText, r.value)))
                && (r.Threw? ==>
                      && summary == None && error == Some(r.thrown.message)
                      && store.cell == old(store.cell))
    {
      var proceed := Start();
      if proceed {
        var outcome := SummarizeFeedback(feedbackText, gateway);
        Finish(outcome, store);
      }
    }
  }
}
