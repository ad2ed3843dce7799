/** The FAQ tool: a business description in, a list of question/answer
    pairs out, saved in the `faq` slot. */
module FaqTool {
  import opened Types
  import opened Json
  import opened Strings
  import opened Records
  import opened Storage
  import opened GeminiService

  const EmptyDescriptionMessage := "Please enter a business description."

  /** The object saved in the slot: `{ businessDescription, faqs }`. */
  function SavedState(businessDescription: string, faqs: seq<FaqItem>): Json {
    JObj(map["businessDescription" := JStr(businessDescription), "faqs" := EncodeFaqItems(faqs)])
  }

  /** `savedState.businessDescription || ''` */
  function RestoredDescription(saved: Json): string {
    FieldOr(saved, "businessDescription", DecodeString, "")
  }

  /** `savedState.faqs || []` */
  function RestoredFaqs(saved: Json): seq<FaqItem> {
    FieldOr(saved, "faqs", DecodeFaqItems, [])
  }

  /** What a successful generation saves is what a later restore reads
      back, provided the store could write it. */
  lemma SaveThenRestore(cell: Cell, readFails: bool, businessDescription: string, faqs: seq<FaqItem>)
    ensures var saved := Loaded(Saved(cell, readFails, false, Tab.Faq, SavedState(businessDescription, faqs)), false, Tab.Faq);
            && saved.Some?
            && RestoredDescription(saved.value) == businessDescription
            && RestoredFaqs(saved.value) == faqs
  {
    FaqItemsRoundTrip(faqs);
  }

  /** One FAQ as copy text. */
  function Entry(f: FaqItem): string {
    "Q: " + f.question + "\nA: " + f.answer
  }

  function Entries(faqs: seq<FaqItem>): (r: seq<string>)
    ensures |r| == |faqs| && forall i :: 0 <= i < |faqs| ==> r[i] == Entry(faqs[i])
  {
    seq(|faqs|, i requires 0 <= i < |faqs| => Entry(faqs[i]))
  }

  /** `getCopyText`: the entries joined by a blank line. */
  function CopyText(faqs: seq<FaqItem>): (text: string)
    ensures faqs == [] ==> text == ""
    ensures |faqs| == 1 ==> text == "Q: " + faqs[0].question + "\nA: " + faqs[0].answer
  {
    Join(Entries(faqs), "\n\n")
  }

  /** Adding a FAQ to a non-empty list adds a blank line and its entry. */
  lemma CopyTextSnoc(faqs: seq<FaqItem>, f: FaqItem)
    requires faqs != []
    ensures CopyText(faqs + [f]) == CopyText(faqs) + "\n\n" + Entry(f)
  {
    assert Entries(faqs + [f]) == Entries(faqs) + [Entry(f)];
    JoinSnoc(Entries(faqs), "\n\n", Entry(f));
  }

  /** An entry whose question and answer are single lines contains no blank
      line and does not end with a newline. */
  lemma EntryEndsBeforeBlankLine(f: FaqItem)
    requires HasNoNewline(f.question) && HasNoNewline(f.answer)
    ensures EndsBeforeBlankLine(Entry(f))
  {
    var e := Entry(f);
    var n := |f.question| + 3;
    assert e[n] == '\n' && e[n + 1] == 'A';
    assert forall i :: 0 <= i < |e| && i != n ==> e[i] != '\n' by {
      forall i | 0 <= i < |e| && i != n
        ensures e[i] != '\n'
      {
        if i < 3 {
        } else if i < n {
          assert e[i] == f.question[i - 3];
        } else if i <= n + 3 {
        } else {
          assert e[i] == f.answer[i - n - 4];
        }
      }
    }
  }

  /** The copy text reads back entry by entry: its first blank line ends the
      first entry, and what follows is the copy text of the rest. */
  lemma {:induction false} CopyTextSplitsAfterFirstEntry(faqs: seq<FaqItem>)
    requires |faqs| >= 2
    requires HasNoNewline(faqs[0].question) && HasNoNewline(faqs[0].answer)
    ensures SplitAtBlankLine(CopyText(faqs)) == Some((Entry(faqs[0]), CopyText(faqs[1..])))
  {
    assert Entries(faqs)[1..] == Entries(faqs[1..]);
    EntryEndsBeforeBlankLine(faqs[0]);
    SplitAfterHead(Entry(faqs[0]), CopyText(faqs[1..]));
  }

  /** The component's state. */
  class FaqGenerator {
    var businessDescription: string
    var faqs: seq<FaqItem>
    var isLoading: bool
    var error: Option<string>

    constructor ()
      ensures businessDescription == "" && faqs == [] && !isLoading && error == None
    {
      businessDescription := "";
      faqs := [];
      isLoading := false;
      error := None;
    }

    /** The mount effect: a saved slot replaces the inputs and the result,
        each missing or falsy field falling back to its default; with no
        slot nothing changes. */
    method Restore(store: Store)
      modifies this
      ensures var saved := Loaded(store.cell, store.readFails, Tab.Faq);
              if saved.Some? then
                businessDescription == RestoredDescription(saved.value) && faqs == RestoredFaqs(saved.value)
              else
                businessDescription == old(businessDescription) && faqs == old(faqs)
      ensures isLoading == old(isLoading) && error == old(error)
    {
      var saved := store.LoadStateForTab(Tab.Faq);
      if saved.Some? {
        businessDescription := RestoredDescription(saved.value);
        faqs := RestoredFaqs(saved.value);
      }
    }

    /** `handleGenerate` up to the request: a blank description only sets
        the error; otherwise loading starts with the error and the previous
        list cleared. `proceed` says whether the request is sent. */
    method Start() returns (proceed: bool)
      modifies this
      ensures proceed <==> !IsBlank(businessDescription)
      ensures businessDescription == old(businessDescription)
      ensures !proceed ==> error == Some(EmptyDescriptionMessage) && faqs == old(faqs) && isLoading == old(isLoading)
      ensures proceed ==> isLoading && error == None && faqs == []
    {
      if IsBlank(businessDescription) {
        error := Some(EmptyDescriptionMessage);
        return false;
      }
      isLoading := true;
      error := None;
      faqs := [];
      proceed := true;
    }

    /** `handleGenerate` after the request: a result is shown and saved; a
        failure shows its message and saves nothing; loading always ends. */
    method Finish(outcome: Outcome<seq<FaqItem>>, store: Store)
      modifies this, store
      ensures !isLoading && businessDescription == old(businessDescription)
      ensures store.readFails == old(store.readFails) && store.writeFails == old(store.writeFails)
      ensures outcome.Returned? ==>
                && faqs == outcome.value && error == old(error)
                && store.cell == Saved(old(store.cell), store.readFails, store.writeFails, Tab.Faq,
                                       SavedState(businessDescription, outcome.value))
      ensures outcome.Threw? ==>
                && faqs == old(faqs) && error == Some(CaughtMessage(outcome.thrown))
                && store.cell == old(store.cell)
    {
      match outcome {
        case Returned(result) =>
          faqs := result;
          store.SaveStateForTab(Tab.Faq, SavedState(businessDescription, result));
        case Threw(t) =>
          error := Some(CaughtMessage(t));
      }
      isLoading := false;
    }

    /** The whole `handleGenerate`, with the model's reply given by
        `gateway`. */
    method HandleGenerate(gateway: JsonRequest -> Outcome<seq<FaqItem>>, store: Store)
      modifies this, store
      ensures businessDescription == old(businessDescription)
      ensures store.readFails == old(store.readFails) && store.writeFails == old(store.writeFails)
      ensures IsBlank(businessDescription) ==>
                && error == Some(EmptyDescriptionMessage) && faqs == old(faqs) && isLoading == old(isLoading)
                && store.cell == old(store.cell)
      ensures !IsBlank(businessDescription) ==>
                var r := GenerateFaqs(businessDescription, gateway);
                && !isLoading
                && (r.Returned? ==>
                      && faqs == r.value && error == None
                      && store.cell == Saved(old(store.cell), store.readFails, store.writeFails, Tab.Faq,
                                             SavedState(businessDescription, r.value)))
                && (r.Threw? ==>
                      && faqs == [] && error == Some(r.thrown.message)
                      && store.cell == old(store.cell))
    {
      var proceed := Start();
      if proceed {
        var outcome := GenerateFaqs(businessDescription, gateway);
        Finish(outcome, store);
      }
    }
  }
}
