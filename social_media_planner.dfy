/** The social tool: a topic in, a list of post ideas out, saved in the
    `social` slot. */
module SocialTool {
  import opened Types
  import opened Json
  import opened Strings
  import opened Records
  import opened Storage
  import opened GeminiService

  const EmptyTopicMessage := "Please enter a topic."

  /** The object saved in the slot: `{ topic, posts }`. */
  function SavedState(topic: string, posts: seq<SocialMediaPost>): Json {
    JObj(map["topic" := JStr(topic), "posts" := EncodePosts(posts)])
  }

  /** `savedState.topic || ''` */
  function RestoredTopic(saved: Json): string {
    FieldOr(saved, "topic", DecodeString, "")
  }

  /** `savedState.posts || []` */
  function RestoredPosts(saved: Json): seq<SocialMediaPost> {
    FieldOr(saved, "posts", DecodePosts, [])
  }

  /** What a successful generation saves is what a later restore reads
      back, provided the store could write it. */
  lemma SaveThenRestore(cell: Cell, readFails: bool, topic: string, posts: seq<SocialMediaPost>)
    ensures var saved := Loaded(Saved(cell, readFails, false, Tab.Social, SavedState(topic, posts)), false, Tab.Social);
            && saved.Some?
            && RestoredTopic(saved.value) == topic
            && RestoredPosts(saved.value) == posts
  {
    PostsRoundTrip(posts);
  }

  /** The copy text of one post card: platform, copy and visual, separated
      by blank lines. */
  function PostCopyText(post: SocialMediaPost): (text: string)
    ensures text == Join(["Platform: " + post.platform, "Copy: " + post.copy, "Visual: " + post.visual], "\n\n")
  {
    var parts := ["Platform: " + post.platform, "Copy: " + post.copy, "Visual: " + post.visual];
    var sep := "\n\n";
    assert parts[1..] == [parts[1], parts[2]] && parts[1..][1..] == [parts[2]];
    assert Join(parts[1..], sep) == parts[1] + sep + parts[2];
    assert Join(parts, sep) == parts[0] + sep + (parts[1] + sep + parts[2]);
    parts[0] + "\n\n" + parts[1] + "\n\n" + parts[2]
  }

  /** Reads a post back from its copy text, cutting at the first two blank
      lines. */
  function ReadPostCopyText(text: string): (r: Option<SocialMediaPost>)
    ensures r.Some? ==> text == PostCopyText(r.value)
  {
    match SplitAtBlankLine(text)
    case None => None
    case Some((first, rest)) =>
      match SplitAtBlankLine(rest)
      case None => None
      case Some((second, third)) =>
        match (StripPrefix("Platform: ", first), StripPrefix("Copy: ", second), StripPrefix("Visual: ", third))
        case (Some(platform), Some(copy), Some(visual)) => Some(SocialMediaPost(platform, copy, visual))
        case _ => None
  }

  /** With a single-line platform and copy, the copy text is an exact
      encoding of the post; the visual may span any number of lines. */
  lemma PostCopyTextReadsBack(post: SocialMediaPost)
    requires HasNoNewline(post.platform) && HasNoNewline(post.copy)
    ensures ReadPostCopyText(PostCopyText(post)) == Some(post)
  {
    var first := "Platform: " + post.platform;
    var second := "Copy: " + post.copy;
    var third := "Visual: " + post.visual;
    SingleLineConcat("Platform: ", post.platform);
    SingleLineConcat("Copy: ", post.copy);
    var rest := second + "\n\n" + third;
    assert PostCopyText(post) == first + "\n\n" + rest;
    SplitAfterHead(first, rest);
    SplitAfterHead(second, third);
    StripPrefixOfConcat("Platform: ", post.platform);
    StripPrefixOfConcat("Copy: ", post.copy);
    StripPrefixOfConcat("Visual: ", post.visual);
  }

  /** The component's state. */
  class SocialMediaPlanner {
    var topic: string
    var posts: seq<SocialMediaPost>
    var isLoading: bool
    var error: Option<string>

    constructor ()
      ensures topic == "" && posts == [] && !isLoading && error == None
    {
      topic := "";
      posts := [];
      isLoading := false;
      error := None;
    }

    /** The mount effect: a saved slot replaces the topic and the posts,
        each missing or falsy field falling back to its default; with no
        slot nothing changes. */
    method Restore(store: Store)
      modifies this
      ensures var saved := Loaded(store.cell, store.readFails, Tab.Social);
              if saved.Some? then
                topic == RestoredTopic(saved.value) && posts == RestoredPosts(saved.value)
              else
                topic == old(topic) && posts == old(posts)
      ensures isLoading == old(isLoading) && error == old(error)
    {
      var saved := store.LoadStateForTab(Tab.Social);
      if saved.Some? {
        topic := RestoredTopic(saved.value);
        posts := RestoredPosts(saved.value);
      }
    }

    /** `handleGenerate` up to the request: a blank topic only sets the
        error; otherwise loading starts with the error and the old posts
        cleared. */
    method Start() returns (proceed: bool)
      modifies this
      ensures proceed <==> !IsBlank(topic)
      ensures topic == old(topic)
      ensures !proceed ==> error == Some(EmptyTopicMessage) && posts == old(posts) && isLoading == old(isLoading)
      ensures proceed ==> isLoading && error == None && posts == []
    {
      if IsBlank(topic) {
        error := Some(EmptyTopicMessage);
        return false;
      }
      isLoading := true;
      error := None;
      posts := [];
      proceed := true;
    }

    /** `handleGenerate` after the request: a result is shown and saved; a
        failure shows its message and saves nothing; loading always ends. */
    method Finish(outcome: Outcome<seq<SocialMediaPost>>, store: Store)
      modifies this, store
      ensures !isLoading && topic == old(topic)
      ensures store.readFails == old(store.readFails) && store.writeFails == old(store.writeFails)
      ensures outcome.Returned? ==>
                && posts == outcome.value && error == old(error)
                && store.cell == Saved(old(store.cell), store.readFails, store.writeFails, Tab.Social,
                                       SavedState(topic, outcome.value))
      ensures outcome.Threw? ==>
                && posts == old(posts) && error == Some(CaughtMessage(outcome.thrown))
                && store.cell == old(store.cell)
    {
      match outcome {
        case Returned(result) =>
          posts := result;
          store.SaveStateForTab(Tab.Social, SavedState(topic, result));
        case Threw(t) =>
          error := Some(CaughtMessage(t));
      }
      isLoading := false;
    }

    /** The whole `handleGenerate`, with the model's reply given by
        `gateway`. */
    method HandleGenerate(gateway: JsonRequest -> Outcome<seq<SocialMediaPost>>, store: Store)
      modifies this, store
      ensures topic == old(topic)
      ensures store.readFails == old(store.readFails) && store.writeFails == old(store.writeFails)
      ensures IsBlank(topic) ==>
                && error == Some(EmptyTopicMessage) && posts == old(posts) && isLoading == old(isLoading)
                && store.cell == old(store.cell)
      ensures !IsBlank(topic) ==>
                var r := GenerateSocialMediaIdeas(topic, gateway);
                && !isLoading
                && (r.Returned? ==>
                      && posts == r.value && error == None
                      && store.cell == Saved(old(store.cell), store.readFails, store.writeFails, Tab.Social,
                                             SavedState(topic, r.value)))
                && (r.Threw? ==>
                      && posts == [] && error == Some(r.thrown.message)
                      && store.cell == old(store.cell))
    {
      var proceed := Start();
      if proceed {
        var outcome := GenerateSocialMediaIdeas(topic, gateway);
        Finish(outcome, store);
      }
    }
  }
}
