# Business tools dashboard, modelled in Dafny

The dashboard offers five AI-backed tools: an FAQ generator, a marketing
email composer, a social media planner, a feedback summarizer and an image
generator. This project models the logic under the markup:

- **Per-tab persistence** (`storage.dfy`). One root object lives under the
  local-storage key `quadwos-hub-data` and holds one slot per tab. A save
  reads the whole root, overwrites one slot and writes the root back. A load
  reads one slot. Read and parse failures degrade to an empty root. Write
  failures are swallowed. `Storage.Store` is a class over the backing item
  (`Cell`: absent, holding a root, or corrupt) with switches for the two
  failures. Its methods are proved equal to the value-level functions
  `FullState`, `Loaded` and `Saved`, and the lemmas beside them state the
  store's guarantees.
- **The AI adapter** (`gemini_service.dfy`). It holds the prompt templates,
  the model choice, the image style clause, the "no images" check and the
  error rewrapping. The hosted model is a function parameter, `gateway`,
  that maps a request to how the awaited call ends.
- **The five tools** (`faq_generator.dfy`, `email_composer.dfy`,
  `social_media_planner.dfy`, `feedback_summarizer.dfy`,
  `image_generator.dfy`). Each tool is a class with the component's state.
  `Restore` is the mount effect. `Start` is `handleGenerate` up to the
  awaited call, `Finish` is the part after it, and `HandleGenerate` runs
  the whole thing against a `gateway` and a `Store`. The copy-text
  formatters come with read-back functions and lemmas that say when the
  text is an exact encoding.
- **Support** (`types.dfy`, `json.dfy`, `records.dfy`, `strings.dfy`).
  These hold the record types, the values JavaScript sees after
  `JSON.parse` (with JavaScript truthiness, so that `x || fallback` falls
  back exactly when the source does), the record encodings saved in the slots, and `trim`,
  `join` and a blank-line splitter.

## Model

| member | source | states |
|---|---|---|
| Types.TabKey | types.ts:1-7 | Every tab stands for a non-empty slot key (`faq`, `email`, `social`, `image`, `feedback`). |
| Types.TabKeyInjective | types.ts:1-7 | Different tabs have different slot keys, so two tabs never share a slot. |
| Types.CaughtMessage | components/FAQGenerator.tsx:40-41 | A caught `Error` shows its own message; any other thrown value shows `An unknown error occurred.` |
| Json.FieldOr | components/FAQGenerator.tsx:23-24 | `saved.field \|\| fallback`: a truthy field of the saved shape is returned; a missing or falsy field gives the fallback. |
| Json.DecodeAllEncodeAll | utils/storage.ts:18-37 | An array written element by element reads back as the same list whenever each element reads back. |
| Json.StringsRoundTrip | types.ts:25-29 | A list of strings written to a slot reads back unchanged. |
| Records.FaqItemsRoundTrip | types.ts:9-12 | A saved FAQ list reads back unchanged, item by item. |
| Records.EmailRoundTrip | types.ts:14-17 | A saved email reads back with the same subject and body. |
| Records.PostsRoundTrip | types.ts:19-23 | A saved list of posts reads back unchanged. |
| Records.SummaryRoundTrip | types.ts:25-29 | A saved feedback summary reads back with its three lists unchanged. |
| Strings.Trim | components/FAQGenerator.tsx:29 | `trim()` gives the slice of `s` after its leading whitespace with only whitespace cut from either end, and a non-empty result starts and ends with a non-whitespace character. |
| Strings.BlankIffAllWhitespace | components/FAQGenerator.tsx:29 | `!s.trim()` holds exactly when every character of `s` is whitespace, the empty string included. |
| Strings.Join | components/FAQGenerator.tsx:58 | `join(sep)` has the total length of the parts plus one separator between each pair. |
| Strings.JoinSnoc | components/FAQGenerator.tsx:58 | Joining one more part appends the separator and that part. |
| Storage.Store.GetFullState | utils/storage.ts:18-26 | The root when it is readable and parses; an empty root when the item is missing, unreadable or corrupt. It never fails. |
| Storage.Store.SetFullState | utils/storage.ts:32-38 | The item holds the new root, unless the write fails; then the item is unchanged and nothing is raised. |
| Storage.Store.LoadStateForTab | utils/storage.ts:45-48 | The result is present exactly when the root is readable and the tab's slot holds a truthy value, and then it is that value. |
| Storage.Store.SaveStateForTab | utils/storage.ts:56-61 | The new item is the read root (empty if unreadable) with the tab's slot replaced, as written by `SetFullState`. |
| Storage.SaveThenLoad | utils/storage.ts:45-60 | After a successful save, a readable load gives back the saved value when it is truthy, and nothing when it is falsy. |
| Storage.SaveKeepsOtherKeys | utils/storage.ts:50-60 | Saving one slot of a readable root keeps every other key, present or absent, with its value. |
| Storage.SaveKeepsOtherSlots | utils/storage.ts:50-60 | After saving tab `k1`, loading any other tab gives what it gave before. |
| Storage.LoadWithoutSlot | utils/storage.ts:21-47 | A missing root, or a root without the tab's slot, loads as nothing. |
| Storage.UnreadableRootReadsEmpty | utils/storage.ts:19-25 | An unreadable or corrupt root reads as an empty root and every load gives nothing. |
| Storage.FailedWriteKeepsItem | utils/storage.ts:33-37 | A save whose write fails leaves the stored item exactly as it was. |
| Storage.SaveOverUnreadableRoot | utils/storage.ts:22-60 | Saving over an unreadable or corrupt root writes a root holding only the saved slot; all other slots are lost. |
| Storage.FalsySlotLoadsNone | utils/storage.ts:47 | A slot holding a falsy value loads as nothing. |
| Storage.LastWriteWins | utils/storage.ts:59-60 | Two saves to one slot leave the same item as the second save alone. |
| GeminiService.ParsedJsonResponse | services/geminiService.ts:22-30 | A parsed reply passes through unchanged. A thrown `Error` with message `m` becomes an `Error` with the prefix `Failed to get a valid response from the AI. Details: ` and then `m`. Any other thrown value becomes the fixed unknown-error `Error`. |
| GeminiService.FaqPrompt | services/geminiService.ts:35-37 | The FAQ prompt is the fixed preamble, then the description verbatim between double quotes, and nothing after. |
| GeminiService.EmailPrompt | services/geminiService.ts:56-59 | The email prompt is the preamble, the segment verbatim between double quotes, the `Email Goal: ` label line, and the goal verbatim between double quotes at the end. |
| GeminiService.SocialPrompt | services/geminiService.ts:74 | The social prompt is the preamble, the topic verbatim between double quotes, and then the fixed closing instruction. |
| GeminiService.FeedbackPrompt | services/geminiService.ts:93-95 | The feedback prompt is the preamble, then the feedback verbatim between double quotes, and nothing after. |
| GeminiService.OneInputPromptsInjective | services/geminiService.ts:35-95 | Distinct inputs give distinct FAQ, social and feedback prompts, so each input can be recovered. |
| GeminiService.EmailPromptAmbiguous | services/geminiService.ts:56-59 | With no escaping, two different (segment, goal) pairs can give the same email prompt. |
| GeminiService.GenerateFaqs | services/geminiService.ts:34-52 | Sends one request with the FAQ prompt, `gemini-2.5-flash` and the FAQ-list schema. A reply passes through, and any failure is rethrown as an `Error`. |
| GeminiService.ComposeMarketingEmail | services/geminiService.ts:55-71 | Sends one request with the email prompt, `gemini-2.5-flash` and the email schema. A reply passes through, and any failure is rethrown as an `Error`. |
| GeminiService.GenerateSocialMediaIdeas | services/geminiService.ts:73-90 | Sends one request with the social prompt, `gemini-2.5-flash` and the post-list schema. A reply passes through, and any failure is rethrown as an `Error`. |
| GeminiService.SummarizeFeedback | services/geminiService.ts:92-108 | Sends one request with the feedback prompt, `gemini-2.5-pro` and the summary schema. A reply passes through, and any failure is rethrown as an `Error`. |
| GeminiService.ModelChoice | services/geminiService.ts:51-107 | FAQ, email and social requests use `gemini-2.5-flash`. Only the feedback summary uses another model (`gemini-2.5-pro`). |
| GeminiService.ImagePrompt | services/geminiService.ts:112-115 | The prompt is unchanged exactly when the style is empty or `none`. Otherwise it is the prompt, then `, in the style of `, then the style. |
| GeminiService.GenerateImage | services/geminiService.ts:110-139 | Asks `imagen-4.0-generate-001` for one JPEG at the given ratio with the styled prompt. It succeeds exactly when the reply holds at least one image, and then returns the first. Every failure is an `Error` whose message is the image-failure prefix plus a cause, or the fixed unknown message. |
| GeminiService.ImageResult | services/geminiService.ts:127-137 | A non-empty image list yields its first image. A missing or empty list fails with `Failed to generate image. Details: ` plus the no-images message. A thrown `Error` is rewrapped with the same prefix, and any other thrown value gives the fixed unknown-error `Error`. |
| GeminiService.AdapterFailuresCarryMessages | services/geminiService.ts:26-137 | Every failure the adapter raises is an `Error`, so a tool shows the adapter's own message and never its generic fallback. |
| FaqTool.SaveThenRestore | components/FAQGenerator.tsx:20-39 | The slot a successful generation saves restores the same description and FAQ list. |
| FaqTool.Entries | components/FAQGenerator.tsx:58 | One entry per FAQ, in order, each `Q: ` + question + newline + `A: ` + answer. |
| FaqTool.CopyText | components/FAQGenerator.tsx:58 | No FAQs give the empty string. One FAQ gives its entry alone. |
| FaqTool.CopyTextSnoc | components/FAQGenerator.tsx:58 | One more FAQ appends a blank line and its entry. |
| FaqTool.EntryEndsBeforeBlankLine | components/FAQGenerator.tsx:58 | An entry with single-line question and answer holds no blank line and does not end in a newline. |
| FaqTool.CopyTextSplitsAfterFirstEntry | components/FAQGenerator.tsx:58 | With a single-line first FAQ, the copy text splits at its first blank line into that entry and the copy text of the rest. |
| FaqTool.FaqGenerator.constructor | components/FAQGenerator.tsx:15-18 | The initial state: empty description, no FAQs, not loading, no error. |
| FaqTool.FaqGenerator.Restore | components/FAQGenerator.tsx:20-26 | A saved slot sets the description and FAQs, each falling back to `''` and `[]`. With no slot, nothing changes. |
| FaqTool.FaqGenerator.Start | components/FAQGenerator.tsx:29-35 | A blank description sets only the error `Please enter a business description.` and sends nothing. Otherwise loading starts with the error and the FAQs cleared. |
| FaqTool.FaqGenerator.Finish | components/FAQGenerator.tsx:36-44 | On success the FAQs are the result and the `faq` slot is saved as `{businessDescription, faqs}`. On failure the error holds the caught message and the store is unchanged. Loading ends either way. |
| FaqTool.FaqGenerator.HandleGenerate | components/FAQGenerator.tsx:28-45 | The whole handler against the model's reply. A blank input sends nothing. A reply shows and saves the result. A failure leaves the FAQs empty, shows the adapter's message and saves nothing. |
| EmailTool.SaveThenRestore | components/EmailComposer.tsx:22-42 | The slot a successful composition saves restores the same segment, goal and email. |
| EmailTool.CopyText | components/EmailComposer.tsx:59 | `Subject: ` + subject, a blank line, then the body. With no email, both parts print `undefined`. |
| EmailTool.ReadCopyText | components/EmailComposer.tsx:59 | Any email read back from a text is one whose copy text is exactly that text. |
| EmailTool.CopyTextReadsBack | components/EmailComposer.tsx:59 | With a single-line subject, the copy text reads back as the same email, whatever the body holds. |
| EmailTool.EmailComposer.constructor | components/EmailComposer.tsx:16-20 | The initial state: empty segment and goal, no email, not loading, no error. |
| EmailTool.EmailComposer.Restore | components/EmailComposer.tsx:22-29 | A saved slot sets the segment, goal and email, each falling back to `''`, `''` and null. With no slot, nothing changes. |
| EmailTool.EmailComposer.Start | components/EmailComposer.tsx:32-38 | Proceeds exactly when both trimmed fields are non-empty. Otherwise it sets only `Please fill in both customer segment and email goal.` When it proceeds, loading starts with the error and the email cleared. |
| EmailTool.EmailComposer.Finish | components/EmailComposer.tsx:39-47 | On success the email is the result and the `email` slot is saved as `{customerSegment, emailGoal, email}`. On failure the error holds the caught message and the store is unchanged. Loading ends either way. |
| EmailTool.EmailComposer.HandleGenerate | components/EmailComposer.tsx:31-48 | The whole handler: nothing is sent unless both fields are non-blank. A reply is shown and saved. A failure leaves the email null, shows the adapter's message and saves nothing. |
| SocialTool.SaveThenRestore | components/SocialMediaPlanner.tsx:20-39 | The slot a successful generation saves restores the same topic and posts. |
| SocialTool.PostCopyText | components/SocialMediaPlanner.tsx:82 | The copy text is the three labelled parts `Platform: `, `Copy: ` and `Visual: `, each followed by its field, joined by blank lines. |
| SocialTool.ReadPostCopyText | components/SocialMediaPlanner.tsx:82 | Any post read back from a text is one whose copy text is exactly that text. |
| SocialTool.PostCopyTextReadsBack | components/SocialMediaPlanner.tsx:82 | With a single-line platform and copy, a post's copy text reads back as the same post, whatever the visual holds. |
| SocialTool.SocialMediaPlanner.constructor | components/SocialMediaPlanner.tsx:15-18 | The initial state: empty topic, no posts, not loading, no error. |
| SocialTool.SocialMediaPlanner.Restore | components/SocialMediaPlanner.tsx:20-26 | A saved slot sets the topic and posts, each falling back to `''` and `[]`. With no slot, nothing changes. |
| SocialTool.SocialMediaPlanner.Start | components/SocialMediaPlanner.tsx:29-35 | A blank topic sets only `Please enter a topic.` and sends nothing. Otherwise loading starts with the error and the posts cleared. |
| SocialTool.SocialMediaPlanner.Finish | components/SocialMediaPlanner.tsx:36-44 | On success the posts are the result and the `social` slot is saved as `{topic, posts}`. On failure the error holds the caught message and the store is unchanged. Loading ends either way. |
| SocialTool.SocialMediaPlanner.HandleGenerate | components/SocialMediaPlanner.tsx:28-45 | The whole handler: a blank topic sends nothing. A reply is shown and saved. A failure leaves the posts empty, shows the adapter's message and saves nothing. |
| FeedbackTool.SaveThenRestore | components/FeedbackSummarizer.tsx:19-38 | The slot a successful summary saves restores the same text and summary. |
| FeedbackTool.FeedbackSummarizer.constructor | components/FeedbackSummarizer.tsx:14-17 | The initial state: empty text, no summary, not loading, no error. |
| FeedbackTool.FeedbackSummarizer.Restore | components/FeedbackSummarizer.tsx:19-25 | A saved slot sets the text and summary, each falling back to `''` and null. With no slot, nothing changes. |
| FeedbackTool.FeedbackSummarizer.Start | components/FeedbackSummarizer.tsx:28-34 | Blank feedback sets only `Please enter some customer feedback.` and sends nothing. Otherwise loading starts with the error and the summary cleared. |
| FeedbackTool.FeedbackSummarizer.Finish | components/FeedbackSummarizer.tsx:35-43 | On success the summary is the result and the `feedback` slot is saved as `{feedbackText, summary}`. On failure the error holds the caught message and the store is unchanged. Loading ends either way. |
| FeedbackTool.FeedbackSummarizer.HandleGenerate | components/FeedbackSummarizer.tsx:27-44 | The whole handler: blank feedback sends nothing. A reply is shown and saved. A failure leaves the summary null, shows the adapter's message and saves nothing. |
| ImageTool.DefaultsAreOffered | components/ImageGenerator.tsx:64-65 | The default ratio `1:1` and style `photorealistic` are among the offered options. The default style adds a style clause; `none` adds nothing. |
| ImageTool.SaveThenRestore | components/ImageGenerator.tsx:25-46 | The slot a successful generation saves restores the same prompt, ratio, style and image, provided the ratio, style and image are non-empty. |
| ImageTool.EmptyFieldsRestoreDefaults | components/ImageGenerator.tsx:29-31 | Empty saved fields restore as the defaults: ratio `1:1`, style `photorealistic` and no image. |
| ImageTool.ImageGenerator.constructor | components/ImageGenerator.tsx:18-23 | The initial state: empty prompt, ratio `1:1`, style `photorealistic`, no image, not loading, no error. |
| ImageTool.ImageGenerator.Restore | components/ImageGenerator.tsx:25-33 | A saved slot sets the prompt, ratio, style and image, each falling back to `''`, `1:1`, `photorealistic` and null. With no slot, nothing changes. |
| ImageTool.ImageGenerator.Start | components/ImageGenerator.tsx:36-42 | A blank prompt sets only `Please enter a prompt for the image.` and sends nothing. Otherwise loading starts with the error and the image cleared. |
| ImageTool.ImageGenerator.Finish | components/ImageGenerator.tsx:43-51 | On success the image is the result and the `image` slot is saved as `{prompt, aspectRatio, style, imageBase64}`. On failure the error holds the caught message and the store is unchanged. Loading ends either way. |
| ImageTool.ImageGenerator.HandleGenerate | components/ImageGenerator.tsx:35-52 | The whole handler against the image service's reply, with the styled prompt and the "no images" check. A blank prompt sends nothing. A reply is shown and saved. A failure leaves the image null and shows the adapter's message. |

## Left out

- The generative-AI SDK, the network and the `API_KEY` check at load time. Each call is the `gateway` parameter: a request in, a value or a thrown value out.
- `JSON.parse` and `JSON.stringify`. A stored item is a parsed root, absent, or corrupt. The model's JSON reply is trusted to match its schema, so the gateway returns a typed value. The schema objects themselves are reduced to a `Schema` tag.
- The `temperature: 0.7` setting and the contents of the base64 image data.
- A stored item that parses to something other than an object (for example the text `null`, which makes the slot lookup throw outside the `try`). The model assumes every parsed root is an object.
- `localStorage` itself and `console.error` logging. The backing item is the `Cell` field of `Storage.Store`, and its read and write failures are two flags.
- Json.FieldOr: a truthy saved field whose shape differs from what the tool saves (a hand-edited slot, say) restores as the default. The source would install the raw value untyped. FaqTool.FaqGenerator.Restore, EmailTool.EmailComposer.Restore, SocialTool.SocialMediaPlanner.Restore, FeedbackTool.FeedbackSummarizer.Restore and ImageTool.ImageGenerator.Restore inherit this.
- Strings.Trim: the whitespace set is space, tab, CR and LF. JavaScript's `trim()` also strips other Unicode spaces and line terminators.
- Json: numbers are integers. Only their truthiness is used (`0` is falsy).
- The markup, styles and rendering, the tab bar, the header, the contact panel, the spinner and the result card.
- The copy button: clipboard I/O and a two-second timer.
- Requests that overlap, and edits made while a request is in flight. The model runs each handler to completion in one step. It also leaves out the disabled-button guard that hides a second click while loading.
- The text inputs' `onChange` handlers and the selectors. They only assign the typed value to a field.

