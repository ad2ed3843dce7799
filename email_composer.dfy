/** The email tool: a customer segment and an email goal in, a subject and
    a body out, saved in the `email` slot. */
module EmailTool {
  import opened Types
  import opened Json
  import opened Strings
  import opened Records
  import opened Storage
  import opened GeminiService

  const MissingFieldsMessage := "Please fill in both customer segment and email goal."

  /** The object saved in the slot: `{ customerSegment, emailGoal, email }`. */
  function SavedState(customerSegment: string, emailGoal: string, email: MarketingEmail): Json {
    JObj(map[
      "customerSegment" := JStr(customerSegment),
      "emailGoal" := JStr(emailGoal),
      "email" := EncodeEmail(email)])
  }

  /** `savedState.customerSegment || ''` */
  function RestoredSegment(saved: Json): string {
    FieldOr(saved, "customerSegment", DecodeString, "")
  }

  /** `savedState.emailGoal || ''` */
  function RestoredGoal(saved: Json): string {
    FieldOr(saved, "emailGoal", DecodeString, "")
  }

  /** `savedState.email || null` */
  function RestoredEmail(saved: Json): Option<MarketingEmail> {
    FieldOr(saved, "email", j => Some(DecodeEmail(j)), None)
  }

  /** What a successful composition saves is what a later restore reads
      back, provided the store could write it. */
  lemma SaveThenRestore(cell: Cell, readFails: bool, customerSegment: string, emailGoal: string,
                        email: MarketingEmail)
    ensures var saved := Loaded(Saved(cell, readFails, false, Tab.Email,
                                      SavedState(customerSegment, emailGoal, email)), false, Tab.Email);
            && saved.Some?
            && RestoredSegment(saved.value) == customerSegment
            && RestoredGoal(saved.value) == emailGoal
            && RestoredEmail(saved.value) == Some(email)
  {
    EmailRoundTrip(email);
  }

  /** `getCopyText`: the subject line, a blank line, then the body. With no
      email the template prints JavaScript's `undefined` for both parts. */
  function CopyText(email: Option<MarketingEmail>): (text: string)
    ensures email.Some? ==> text == "Subject: " + email.value.subject + "\n\n" + email.value.body
    ensures email.None? ==> text == "Subject: undefined\n\nundefined"
  {
    match email
    case Some(e) => "Subject: " + e.subject + "\n\n" + e.body
    case None => "Subject: undefined\n\nundefined"
  }

  /** Reads an email back from its copy text: the subject is what follows
      `Subject: ` up to the first blank line, the body is everything after. */
  function ReadCopyText(text: string): (r: Option<MarketingEmail>)
    ensures r.Some? ==> text == "Subject: " + r.value.subject + "\n\n" + r.value.body
  {
    match SplitAtBlankLine(text)
    case Some((head, body)) =>
      (match StripPrefix("Subject: ", head)
       case Some(subject) => Some(MarketingEmail(subject, body))
       case None => None)
    case None => None
  }

  /** A single-line subject makes the copy text an exact encoding: any body,
      blank lines included, comes back unchanged. */
  lemma CopyTextReadsBack(email: MarketingEmail)
    requires HasNoNewline(email.subject)
    ensures ReadCopyText(CopyText(Some(email))) == Some(email)
  {
    SingleLineConcat("Subject: ", email.subject);
    SplitAfterHead("Subject: " + email.subject, email.body);
    StripPrefixOfConcat("Subject: ", email.subject);
  }

  /** The component's state. */
  class EmailComposer {
    var customerSegment: string
    var emailGoal: string
    var email: Option<MarketingEmail>
    var isLoading: bool
    var error: Option<string>

    constructor ()
      ensures customerSegment == "" && emailGoal == "" && email == None && !isLoading && error == None
    {
      customerSegment := "";
      emailGoal := "";
      email := None;
      isLoading := false;
      error := None;
    }

    /** The mount effect: a saved slot replaces the inputs and the result,
        each missing or falsy field falling back to its default; with no
        slot nothing changes. */
    method Restore(store: Store)
      modifies this
      ensures var saved := Loaded(store.cell, store.readFails, Tab.Email);
              if saved.Some? then
                && customerSegment == RestoredSegment(saved.value)
                && emailGoal == RestoredGoal(saved.value)
                && email == RestoredEmail(saved.value)
              else
                customerSegment == old(customerSegment) && emailGoal == old(emailGoal) && email == old(email)
      ensures isLoading == old(isLoading) && error == old(error)
    {
      var saved := store.LoadStateForTab(Tab.Email);
      if saved.Some? {
        customerSegment := RestoredSegment(saved.value);
        emailGoal := RestoredGoal(saved.value);
        email := RestoredEmail(saved.value);
      }
    }

    /** `handleGenerate` up to the request: both fields must be non-blank;
        otherwise only the error is set. */
    method Start() returns (proceed: bool)
      modifies this
      ensures proceed <==> !IsBlank(customerSegment) && !IsBlank(emailGoal)
      ensures customerSegment == old(customerSegment) && emailGoal == old(emailGoal)
      ensures !proceed ==> error == Some(MissingFieldsMessage) && email == old(email) && isLoading == old(isLoading)
      ensures proceed ==> isLoading && error == None && email == None
    {
      if IsBlank(customerSegment) || IsBlank(emailGoal) {
        error := Some(MissingFieldsMessage);
        return false;
      }
      isLoading := true;
      error := None;
      email := None;
      proceed := true;
    }

    /** `handleGenerate` after the request: a result is shown and saved; a
        failure shows its message and saves nothing; loading always ends. */
    method Finish(outcome: Outcome<MarketingEmail>, store: Store)
      modifies this, store
      ensures !isLoading && customerSegment == old(customerSegment) && emailGoal == old(emailGoal)
      ensures store.readFails == old(store.readFails) && store.writeFails == old(store.writeFails)
      ensures outcome.Returned? ==>
                && email == Some(outcome.value) && error == old(error)
                && store.cell == Saved(old(store.cell), store.readFails, store.writeFails, Tab.Email,
                                       SavedState(customerSegment, emailGoal, outcome.value))
      ensures outcome.Threw? ==>
                && email == old(email) && error == Some(CaughtMessage(outcome.thrown))
                && store.cell == old(store.cell)
    {
      match outcome {
        case Returned(result) =>
          email := Some(result);
          store.SaveStateForTab(Tab.Email, SavedState(customerSegment, emailGoal, result));
        case Threw(t) =>
          error := Some(CaughtMessage(t));
      }
      isLoading := false;
    }

    /** The whole `handleGenerate`, with the model's reply given by
        `gateway`. */
    method HandleGenerate(gateway: JsonRequest -> Outcome<MarketingEmail>, store: Store)
      modifies this, store
      ensures customerSegment == old(customerSegment) && emailGoal == old(emailGoal)
      ensures store.readFails == old(store.readFails) && store.writeFails == old(store.writeFails)
      ensures IsBlank(customerSegment) || IsBlank(emailGoal) ==>
                && error == Some(MissingFieldsMessage) && email == old(email) && isLoading == old(isLoading)
                && store.cell == old(store.cell)
      ensures !IsBlank(customerSegment) && !IsBlank(emailGoal) ==>
                var r := ComposeMarketingEmail(customerSegment, emailGoal, gateway);
                && !isLoading
                && (r.Returned? ==>
                      && email == Some(r.value) && error == None
                      && store.cell == Saved(old(store.cell), store.readFails, store.writeFails, Tab.Email,
                                             SavedState(customerSegment, emailGoal, r.value)))
                && (r.Threw? ==>
                      && email == None && error == Some(r.thrown.message)
                      && store.cell == old(store.cell))
    {
      var proceed := Start();
      if proceed {
        var outcome := ComposeMarketingEmail(customerSegment, emailGoal, gateway);
        Finish(outcome, store);
      }
    }
  }
}
