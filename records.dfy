/** The AI's result records as the JSON objects they are stored as, and
    read back from them with the shape the schema promises. */
module Records {
  import opened Types
  import opened Json

  function EncodeFaqItem(f: FaqItem): Json {
    JObj(map["question" := JStr(f.question), "answer" := JStr(f.answer)])
  }

  function DecodeFaqItem(j: Json): (r: Option<FaqItem>)
    ensures r.Some? ==> Get(j, "question") == Some(JStr(r.value.question))
                        && Get(j, "answer") == Some(JStr(r.value.answer))
  {
    match (Get(j, "question"), Get(j, "answer"))
    case (Some(JStr(q)), Some(JStr(a))) => Some(FaqItem(q, a))
    case _ => None
  }

  function EncodeFaqItems(faqs: seq<FaqItem>): Json {
    JArr(EncodeAll(faqs, EncodeFaqItem))
  }

  function DecodeFaqItems(j: Json): (r: Option<seq<FaqItem>>)
    ensures r.Some? ==> j.JArr? && |r.value| == |j.items|
  {
    if j.JArr? then DecodeAll(j.items, DecodeFaqItem) else None
  }

  lemma FaqItemsRoundTrip(faqs: seq<FaqItem>)
    ensures DecodeFaqItems(EncodeFaqItems(faqs)) == Some(faqs)
  {
    DecodeAllEncodeAll(faqs, EncodeFaqItem, DecodeFaqItem);
  }

  function EncodeEmail(e: MarketingEmail): Json {
    JObj(map["subject" := JStr(e.subject), "body" := JStr(e.body)])
  }

  function DecodeEmail(j: Json): (r: Option<MarketingEmail>)
    ensures r.Some? ==> Get(j, "subject") == Some(JStr(r.value.subject))
                        && Get(j, "body") == Some(JStr(r.value.body))
  {
    match (Get(j, "subject"), Get(j, "body"))
    case (Some(JStr(s)), Some(JStr(b))) => Some(MarketingEmail(s, b))
    case _ => None
  }

  lemma EmailRoundTrip(e: MarketingEmail)
    ensures DecodeEmail(EncodeEmail(e)) == Some(e)
  {
  }

  function EncodePost(p: SocialMediaPost): Json {
    JObj(map["platform" := JStr(p.platform), "copy" := JStr(p.copy), "visual" := JStr(p.visual)])
  }

  function DecodePost(j: Json): (r: Option<SocialMediaPost>)
    ensures r.Some? ==> Get(j, "platform") == Some(JStr(r.value.platform))
                        && Get(j, "copy") == Some(JStr(r.value.copy))
                        && Get(j, "visual") == Some(JStr(r.value.visual))
  {
    match (Get(j, "platform"), Get(j, "copy"), Get(j, "visual"))
    case (Some(JStr(p)), Some(JStr(c)), Some(JStr(v))) => Some(SocialMediaPost(p, c, v))
    case _ => None
  }

  function EncodePosts(posts: seq<SocialMediaPost>): Json {
    JArr(EncodeAll(posts, EncodePost))
  }

  function DecodePosts(j: Json): (r: Option<seq<SocialMediaPost>>)
    ensures r.Some? ==> j.JArr? && |r.value| == |j.items|
  {
    if j.JArr? then DecodeAll(j.items, DecodePost) else None
  }

  lemma PostsRoundTrip(posts: seq<SocialMediaPost>)
    ensures DecodePosts(EncodePosts(posts)) == Some(posts)
  {
    DecodeAllEncodeAll(posts, EncodePost, DecodePost);
  }

  function EncodeSummary(s: FeedbackSummary): Json {
    JObj(map[
      "positiveThemes" := EncodeStrings(s.positiveThemes),
      "areasForImprovement" := EncodeStrings(s.areasForImprovement),
      "actionableSuggestions" := EncodeStrings(s.actionableSuggestions)])
  }

  function DecodeSummary(j: Json): (r: Option<FeedbackSummary>)
    ensures r.Some? ==> j.JObj?
  {
    match (Get(j, "positiveThemes"), Get(j, "areasForImprovement"), Get(j, "actionableSuggestions"))
    case (Some(p), Some(a), Some(s)) =>
      (match (DecodeStrings(p), DecodeStrings(a), DecodeStrings(s))
       case (Some(ps), Some(ims), Some(ss)) => Some(FeedbackSummary(ps, ims, ss))
       case _ => None)
    case _ => None
  }

  lemma SummaryRoundTrip(s: FeedbackSummary)
    ensures DecodeSummary(EncodeSummary(s)) == Some(s)
  {
    StringsRoundTrip(s.positiveThemes);
    StringsRoundTrip(s.areasForImprovement);
    StringsRoundTrip(s.actionableSuggestions);
  }
}
