/** The dashboard's shared vocabulary: the five tool slots, the records the
    AI returns, and how an asynchronous call ends (a value or something thrown). */
module Types {

  datatype Option<+T> = None | Some(value: T)

  /** The five tabs; each names one slot of the persisted root. */
  datatype Tab = Faq | Email | Social | Image | Feedback

  /** The string each tab stands for in the persisted root. */
  function TabKey(t: Tab): (key: string)
    ensures key != []
  {
    match t
    case Faq => "faq"
    case Email => "email"
    case Social => "social"
    case Image => "image"
    case Feedback => "feedback"
  }

  lemma TabKeyInjective(t1: Tab, t2: Tab)
    ensures TabKey(t1) == TabKey(t2) ==> t1 == t2
  {
  }

  datatype FaqItem = FaqItem(question: string, answer: string)

  datatype MarketingEmail = MarketingEmail(subject: string, body: string)

  datatype SocialMediaPost = SocialMediaPost(platform: string, copy: string, visual: string)

  datatype FeedbackSummary = FeedbackSummary(
    positiveThemes: seq<string>,
    areasForImprovement: seq<string>,
    actionableSuggestions: seq<string>)

  /** What a `catch` receives: an `Error` instance (with its message) or any
      other thrown value. */
  datatype Thrown = ErrorValue(message: string) | NonErrorValue

  /** How an awaited call ends: it resolves with a value or it rejects. */
  datatype Outcome<+T> = Returned(value: T) | Threw(thrown: Thrown)

  /** The message every tool shows for a thrown value that is not an `Error`. */
  const UnknownErrorMessage := "An unknown error occurred."

  /** `err instanceof Error ? err.message : 'An unknown error occurred.'`,
      the expression each tool's `catch` block puts into its error state. */
  function CaughtMessage(t: Thrown): (msg: string)
    ensures t.ErrorValue? ==> msg == t.message
    ensures t.NonErrorValue? ==> msg == UnknownErrorMessage
  {
    match t
    case ErrorValue(m) => m
    case NonErrorValue => UnknownErrorMessage
  }
}
