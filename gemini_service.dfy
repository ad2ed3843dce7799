/** The adapter around the hosted generative model: how each tool's input
    becomes a request, and how the model's reply (or failure) becomes the
    adapter's result. The model itself is a parameter, `gateway`: it maps a
    request to how the awaited call ends. */
module GeminiService {
  import opened Types

  const FlashModel := "gemini-2.5-flash"
  const ProModel := "gemini-2.5-pro"
  const ImageModel := "imagen-4.0-generate-001"

  /** The response schema attached to a JSON request, by the shape it
      describes. */
  datatype Schema = FaqListSchema | EmailSchema | PostListSchema | SummarySchema

  /** A text request constrained to JSON output. */
  datatype JsonRequest = JsonRequest(model: string, prompt: string, schema: Schema)

  /** An image request. */
  datatype ImageRequest = ImageRequest(
    model: string,
    prompt: string,
    numberOfImages: nat,
    outputMimeType: string,
    aspectRatio: string)

  /** How the image call ends when it resolves: the list of returned image
      payloads, or `None` when the reply carries no list at all. */
  type ImageReply = Option<seq<string>>

  // ---------------------------------------------------------------------
  // Error normalisation

  const JsonFailurePrefix := "Failed to get a valid response from the AI. Details: "
  const JsonUnknownFailure := "An unknown error occurred while communicating with the AI."
  const ImageFailurePrefix := "Failed to generate image. Details: "
  const ImageUnknownFailure := "An unknown error occurred while generating the image."
  const NoImagesReturned := "Image generation failed, no images were returned from the API."

  /** `getParsedJsonResponse` after its call: a parsed value passes through;
      anything thrown (transport failure, unparsable text) is rethrown as
      one `Error` whose message names the cause. */
  function ParsedJsonResponse<T>(reply: Outcome<T>): (r: Outcome<T>)
    ensures reply.Returned? <==> r.Returned?
    ensures reply.Returned? ==> r == reply
    ensures r.Threw? ==> r.thrown.ErrorValue?
    ensures (reply.Threw? && reply.thrown.ErrorValue?) ==>
              r.thrown.message == JsonFailurePrefix + reply.thrown.message
    ensures reply == Threw(NonErrorValue) ==> r.thrown.message == JsonUnknownFailure
  {
    match reply
    case Returned(v) => Returned(v)
    case Threw(ErrorValue(m)) => Threw(ErrorValue(JsonFailurePrefix + m))
    case Threw(NonErrorValue) => Threw(ErrorValue(JsonUnknownFailure))
  }

  // ---------------------------------------------------------------------
  // Prompt templates

  /** `pre`, then `s` verbatim between double quotes, then `post`: the
      shape of every text prompt. */
  function Embed(pre: string, s: string, post: string): (p: string)
    ensures |p| == |pre| + |s| + 2 + |post|
    ensures p[..|pre|] == pre
    ensures p[|pre|] == '"' && p[|pre| + 1 + |s|] == '"'
    ensures p[|pre| + 1..|pre| + 1 + |s|] == s
    ensures p[|pre| + 2 + |s|..] == post
  {
    pre + "\"" + s + "\"" + post
  }

  const FaqPreamble := "Act as a customer support expert. Based on the following business description, generate a list of 10-15 frequently asked questions (FAQs) with clear and concise answers. \n  \n  Business Description: "

  /** The FAQ prompt: a fixed preamble, then the business description
      verbatim between double quotes, closing the prompt. */
  function FaqPrompt(businessDescription: string): (p: string)
    ensures |p| == |FaqPreamble| + |businessDescription| + 2
    ensures p[..|FaqPreamble|] == FaqPreamble
    ensures p[|FaqPreamble|] == '"' && p[|p| - 1] == '"'
    ensures p[|FaqPreamble| + 1..|p| - 1] == businessDescription
  {
    Embed(FaqPreamble, businessDescription, "")
  }

  const EmailPreamble := "You are an expert marketing copywriter. Draft a compelling and personalized marketing email for the following scenario. The email should have a catchy subject line and a clear call to action.\n    \n    Customer Segment: "
  const EmailGoalLabel := "\n    Email Goal: "

  /** The email prompt: a fixed preamble, the quoted segment, a label line
      and the quoted goal, each input verbatim. */
  function EmailPrompt(customerSegment: string, emailGoal: string): (p: string)
    ensures |p| == |EmailPreamble| + |customerSegment| + |EmailGoalLabel| + |emailGoal| + 4
    ensures p[..|EmailPreamble|] == EmailPreamble
    ensures p[|EmailPreamble|] == '"' && p[|EmailPreamble| + 1 + |customerSegment|] == '"'
    ensures p[|EmailPreamble| + 1..|EmailPreamble| + 1 + |customerSegment|] == customerSegment
    ensures p[|EmailPreamble| + 2 + |customerSegment|..|p| - 2 - |emailGoal|] == EmailGoalLabel
    ensures p[|p| - 2 - |emailGoal|] == '"' && p[|p| - 1] == '"'
    ensures p[|p| - 1 - |emailGoal|..|p| - 1] == emailGoal
  {
    var head := Embed(EmailPreamble, customerSegment, EmailGoalLabel);
    var p := Embed(head, emailGoal, "");
    assert p[..|head|] == head;
    assert p[..|EmailPreamble|] == head[..|EmailPreamble|];
    assert p[|EmailPreamble| + 1..|EmailPreamble| + 1 + |customerSegment|]
        == head[|EmailPreamble| + 1..|EmailPreamble| + 1 + |customerSegment|];
    assert p[|EmailPreamble| + 2 + |customerSegment|..|p| - 2 - |emailGoal|]
        == head[|EmailPreamble| + 2 + |customerSegment|..];
    p
  }

  const SocialPreamble := "You are a creative social media strategist. Generate 5 unique and engaging social media post ideas for the topic: "
  const SocialClosing := ". For each idea, provide a platform suggestion (e.g., Instagram, Twitter, LinkedIn), the post copy, and a suggestion for a visual (e.g., 'image of...', 'short video showing...')."

  /** The social prompt: the quoted topic sits between a fixed preamble and
      a fixed closing instruction. */
  function SocialPrompt(topic: string): (p: string)
    ensures |p| == |SocialPreamble| + |topic| + 2 + |SocialClosing|
    ensures p[..|SocialPreamble|] == SocialPreamble
    ensures p[|SocialPreamble|] == '"' && p[|SocialPreamble| + 1 + |topic|] == '"'
    ensures p[|SocialPreamble| + 1..|SocialPreamble| + 1 + |topic|] == topic
    ensures p[|p| - |SocialClosing|..] == SocialClosing
  {
    Embed(SocialPreamble, topic, SocialClosing)
  }

  const FeedbackPreamble := "Act as a product manager analyzing customer feedback. Read the following customer reviews and summarize the key information. Identify the main positive themes, the primary areas for improvement, and any actionable suggestions.\n    \n    Customer Feedback: "

  /** The feedback prompt: a fixed preamble, then the feedback verbatim
      between double quotes, closing the prompt. */
  function FeedbackPrompt(feedbackText: string): (p: string)
    ensures |p| == |FeedbackPreamble| + |feedbackText| + 2
    ensures p[..|FeedbackPreamble|] == FeedbackPreamble
    ensures p[|FeedbackPreamble|] == '"' && p[|p| - 1] == '"'
    ensures p[|FeedbackPreamble| + 1..|p| - 1] == feedbackText
  {
    Embed(FeedbackPreamble, feedbackText, "")
  }

  /** Distinct inputs give distinct FAQ, social and feedback prompts: the
      input can be read back from the prompt. */
  lemma OneInputPromptsInjective(a: string, b: string)
    ensures FaqPrompt(a) == FaqPrompt(b) ==> a == b
    ensures SocialPrompt(a) == SocialPrompt(b) ==> a == b
    ensures FeedbackPrompt(a) == FeedbackPrompt(b) ==> a == b
  {
    if SocialPrompt(a) == SocialPrompt(b) {
      assert |a| == |b|;
    }
  }

  /** Because nothing is escaped, a segment that ends with a quote, the goal
      label and a quote can pass for a shorter segment and a longer goal:
      two different input pairs give the same email prompt. */
  lemma EmailPromptAmbiguous(x: string, y: string, z: string)
    ensures var mimic := "\"" + EmailGoalLabel + "\"";
            (x + mimic + y, z) != (x, y + mimic + z)
            && EmailPrompt(x + mimic + y, z) == EmailPrompt(x, y + mimic + z)
  {
    var mimic := "\"" + EmailGoalLabel + "\"";
    assert |x + mimic + y| != |x|;
    calc {
      EmailPrompt(x + mimic + y, z);
      EmailPreamble + "\"" + (x + mimic + y) + "\"" + EmailGoalLabel + "\"" + z + "\"" + "";
      { assert mimic == "\"" + EmailGoalLabel + "\""; }
      EmailPreamble + "\"" + x + mimic + (y + "\"" + EmailGoalLabel + "\"" + z) + "\"" + "";
      EmailPreamble + "\"" + x + "\"" + EmailGoalLabel + "\"" + (y + mimic + z) + "\"" + "";
      EmailPrompt(x, y + mimic + z);
    }
  }

  // ---------------------------------------------------------------------
  // The four JSON tools

  function FaqRequest(businessDescription: string): JsonRequest
  {
    JsonRequest(FlashModel, FaqPrompt(businessDescription), FaqListSchema)
  }

  function EmailRequest(customerSegment: string, emailGoal: string): JsonRequest
  {
    JsonRequest(FlashModel, EmailPrompt(customerSegment, emailGoal), EmailSchema)
  }

  function SocialRequest(topic: string): JsonRequest
  {
    JsonRequest(FlashModel, SocialPrompt(topic), PostListSchema)
  }

  function FeedbackRequest(feedbackText: string): JsonRequest
  {
    JsonRequest(ProModel, FeedbackPrompt(feedbackText), SummarySchema)
  }

  /** FAQ, email and social requests go to `gemini-2.5-flash`; only the
      feedback summary goes to the larger `gemini-2.5-pro`. */
  lemma ModelChoice(d: string, seg: string, goal: string, topic: string, text: string)
    ensures FaqRequest(d).model == EmailRequest(seg, goal).model == SocialRequest(topic).model == "gemini-2.5-flash"
    ensures FeedbackRequest(text).model == "gemini-2.5-pro"
    ensures FeedbackRequest(text).model != FaqRequest(d).model
  {
  }

  /** Each JSON tool sends one request, with its prompt, model and schema,
      and rethrows any failure as an `Error`. */
  function GenerateFaqs(businessDescription: string, gateway: JsonRequest -> Outcome<seq<FaqItem>>)
    : (r: Outcome<seq<FaqItem>>)
    ensures var reply := gateway(JsonRequest(FlashModel, FaqPrompt(businessDescription), FaqListSchema));
            && (reply.Returned? ==> r == reply)
            && (reply.Threw? ==> r.Threw? && r.thrown.ErrorValue?)
  {
    ParsedJsonResponse(gateway(FaqRequest(businessDescription)))
  }

  function ComposeMarketingEmail(customerSegment: string, emailGoal: string,
                                 gateway: JsonRequest -> Outcome<MarketingEmail>)
    : (r: Outcome<MarketingEmail>)
    ensures var reply := gateway(JsonRequest(FlashModel, EmailPrompt(customerSegment, emailGoal), EmailSchema));
            && (reply.Returned? ==> r == reply)
            && (reply.Threw? ==> r.Threw? && r.thrown.ErrorValue?)
  {
    ParsedJsonResponse(gateway(EmailRequest(customerSegment, emailGoal)))
  }

  function GenerateSocialMediaIdeas(topic: string, gateway: JsonRequest -> Outcome<seq<SocialMediaPost>>)
    : (r: Outcome<seq<SocialMediaPost>>)
    ensures var reply := gateway(JsonRequest(FlashModel, SocialPrompt(topic), PostListSchema));
            && (reply.Returned? ==> r == reply)
            && (reply.Threw? ==> r.Threw? && r.thrown.ErrorValue?)
  {
    ParsedJsonResponse(gateway(SocialRequest(topic)))
  }

  function SummarizeFeedback(feedbackText: string, gateway: JsonRequest -> Outcome<FeedbackSummary>)
    : (r: Outcome<FeedbackSummary>)
    ensures var reply := gateway(JsonRequest(ProModel, FeedbackPrompt(feedbackText), SummarySchema));
            && (reply.Returned? ==> r == reply)
            && (reply.Threw? ==> r.Threw? && r.thrown.ErrorValue?)
  {
    ParsedJsonResponse(gateway(FeedbackRequest(feedbackText)))
  }

  // ---------------------------------------------------------------------
  // Images

  const StyleClause := ", in the style of "

  /** The prompt actually sent for an image: the user's prompt, followed by
      a style clause unless the style is empty or `"none"`. */
  function ImagePrompt(prompt: string, style: string): (finalPrompt: string)
    ensures finalPrompt == prompt <==> style == "" || style == "none"
    ensures style != "" && style != "none" ==> finalPrompt == prompt + StyleClause + style
    ensures finalPrompt[..|prompt|] == prompt
  {
    if style != "" && style != "none" then
      assert |prompt + StyleClause + style| > |prompt|;
      prompt + StyleClause + style
    else
      prompt
  }

  function ImageRequestFor(prompt: string, aspectRatio: string, style: string): ImageRequest {
    ImageRequest(ImageModel, ImagePrompt(prompt, style), 1, "image/jpeg", aspectRatio)
  }

  /** `generateImage` after its call: the first returned image; a reply with
      no images, or anything thrown, becomes one `Error` naming the cause. */
  function ImageResult(reply: Outcome<ImageReply>): (r: Outcome<string>)
    ensures r.Threw? ==> r.thrown.ErrorValue?
    ensures (reply.Returned? && reply.value.Some? && reply.value.value != [])
              ==> r == Returned(reply.value.value[0])
    ensures (reply.Returned? && (reply.value.None? || reply.value.value == []))
              ==> r == Threw(ErrorValue(ImageFailurePrefix + NoImagesReturned))
    ensures (reply.Threw? && reply.thrown.ErrorValue?)
              ==> r == Threw(ErrorValue(ImageFailurePrefix + reply.thrown.message))
    ensures reply == Threw(NonErrorValue) ==> r == Threw(ErrorValue(ImageUnknownFailure))
  {
    match reply
    case Returned(images) =>
      if images.None? || images.value == [] then Threw(ErrorValue(ImageFailurePrefix + NoImagesReturned))
      else Returned(images.value[0])
    case Threw(ErrorValue(m)) => Threw(ErrorValue(ImageFailurePrefix + m))
    case Threw(NonErrorValue) => Threw(ErrorValue(ImageUnknownFailure))
  }

  /** `generateImage`: one JPEG asked of the image model with the styled
      prompt; the result is the first image returned, and every failure is
      an `Error` carrying the image-failure prefix or the fixed unknown
      message. */
  function GenerateImage(prompt: string, aspectRatio: string, style: string,
                         gateway: ImageRequest -> Outcome<ImageReply>): (r: Outcome<string>)
    ensures var reply := gateway(ImageRequest(ImageModel, ImagePrompt(prompt, style), 1, "image/jpeg", aspectRatio));
            && (r.Returned? <==> reply.Returned? && reply.value.Some? && reply.value.value != [])
            && (r.Returned? ==> r.value == reply.value.value[0])
            && (r.Threw? ==> r.thrown.ErrorValue?
                             && (r.thrown.message == ImageUnknownFailure
                                 || (|ImageFailurePrefix| <= |r.thrown.message|
                                     && r.thrown.message[..|ImageFailurePrefix|] == ImageFailurePrefix)))
  {
    ImageResult(gateway(ImageRequestFor(prompt, aspectRatio, style)))
  }

  /** What a tool shows for a failed call is the adapter's message itself,
      never the tool's own fallback for non-`Error` values. */
  lemma AdapterFailuresCarryMessages<T>(reply: Outcome<T>, imageReply: Outcome<ImageReply>)
    ensures var r := ParsedJsonResponse(reply);
            r.Threw? ==> CaughtMessage(r.thrown) == r.thrown.message != UnknownErrorMessage
    ensures var r := ImageResult(imageReply);
            r.Threw? ==> CaughtMessage(r.thrown) == r.thrown.message != UnknownErrorMessage
  {
  }
}
