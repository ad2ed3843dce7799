/** The image tool: a prompt, an aspect ratio and a style in, one base64
    JPEG out, saved in the `image` slot. */
module ImageTool {
  import opened Types
  import opened Json
  import opened Strings
  import opened Storage
  import opened GeminiService

  const EmptyPromptMessage := "Please enter a prompt for the image."
  const DefaultAspectRatio := "1:1"
  const DefaultStyle := "photorealistic"

  /** The aspect ratios the selector offers. */
  const AspectRatios: seq<string> := ["1:1", "16:9", "9:16", "4:3", "3:4"]

  /** The styles the selector offers; `none` adds no style clause. */
  const StyleOptions: seq<string> := ["none", "photorealistic", "cinematic", "anime", "watercolor", "digital art", "3d render"]

  /** The defaults are among the offered choices, and the default style does
      change the prompt while `none`, the first option, does not. */
  lemma DefaultsAreOffered(prompt: string)
    ensures DefaultAspectRatio in AspectRatios && DefaultStyle in StyleOptions
    ensures ImagePrompt(prompt, DefaultStyle) == prompt + StyleClause + DefaultStyle
    ensures ImagePrompt(prompt, StyleOptions[0]) == prompt
  {
    assert AspectRatios[0] == DefaultAspectRatio;
    assert StyleOptions[1] == DefaultStyle;
  }

  /** The object saved in the slot: `{ prompt, aspectRatio, style, imageBase64 }`. */
  function SavedState(prompt: string, aspectRatio: string, style: string, imageBase64: string): Json {
    JObj(map[
      "prompt" := JStr(prompt),
      "aspectRatio" := JStr(aspectRatio),
      "style" := JStr(style),
      "imageBase64" := JStr(imageBase64)])
  }

  /** `savedState.prompt || ''` */
  function RestoredPrompt(saved: Json): string {
    FieldOr(saved, "prompt", DecodeString, "")
  }

  /** `savedState.aspectRatio || '1:1'` */
  function RestoredAspectRatio(saved: Json): string {
    FieldOr(saved, "aspectRatio", DecodeString, DefaultAspectRatio)
  }

  /** `savedState.style || 'photorealistic'` */
  function RestoredStyle(saved: Json): string {
    FieldOr(saved, "style", DecodeString, DefaultStyle)
  }

  /** `savedState.imageBase64 || null` */
  function RestoredImage(saved: Json): Option<string> {
    FieldOr(saved, "imageBase64", j => match DecodeString(j) case Some(s) => Some(Some(s)) case None => None, None)
  }

  /** What a successful generation saves is what a later restore reads
      back, provided the store could write it and the image is not empty. */
  lemma SaveThenRestore(cell: Cell, readFails: bool, prompt: string, aspectRatio: string, style: string,
                        imageBase64: string)
    requires aspectRatio != "" && style != "" && imageBase64 != ""
    ensures var saved := Loaded(Saved(cell, readFails, false, Tab.Image,
                                      SavedState(prompt, aspectRatio, style, imageBase64)), false, Tab.Image);
            && saved.Some?
            && RestoredPrompt(saved.value) == prompt
            && RestoredAspectRatio(saved.value) == aspectRatio
            && RestoredStyle(saved.value) == style
            && RestoredImage(saved.value) == Some(imageBase64)
  {
  }

  /** Empty saved fields restore as the defaults: an empty style as
      `photorealistic`, an empty aspect ratio as `1:1`, an empty image as no
      image at all. */
  lemma EmptyFieldsRestoreDefaults(prompt: string)
    ensures var saved := SavedState(prompt, "", "", "");
            && RestoredAspectRatio(saved) == DefaultAspectRatio
            && RestoredStyle(saved) == DefaultStyle
            && RestoredImage(saved) == None
  {
  }

  /** The component's state. */
  class ImageGenerator {
    var prompt: string
    var aspectRatio: string
    var style: string
    var imageBase64: Option<string>
    var isLoading: bool
    var error: Option<string>

    constructor ()
      ensures prompt == "" && aspectRatio == DefaultAspectRatio && style == DefaultStyle
      ensures imageBase64 == None && !isLoading && error == None
    {
      prompt := "";
      aspectRatio := DefaultAspectRatio;
      style := DefaultStyle;
      imageBase64 := None;
      isLoading := false;
      error := None;
    }

    /** The mount effect: a saved slot replaces the inputs and the image,
        each missing or falsy field falling back to its default; with no
        slot nothing changes. */
    method Restore(store: Store)
      modifies this
      ensures var saved := Loaded(store.cell, store.readFails, Tab.Image);
              if saved.Some? then
                && prompt == RestoredPrompt(saved.value)
                && aspectRatio == RestoredAspectRatio(saved.value)
                && style == RestoredStyle(saved.value)
                && imageBase64 == RestoredImage(saved.value)
              else
                && prompt == old(prompt) && aspectRatio == old(aspectRatio)
                && style == old(style) && imageBase64 == old(imageBase64)
      ensures isLoading == old(isLoading) && error == old(error)
    {
      var saved := store.LoadStateForTab(Tab.Image);
      if saved.Some? {
        prompt := RestoredPrompt(saved.value);
        aspectRatio := RestoredAspectRatio(saved.value);
        style := RestoredStyle(saved.value);
        imageBase64 := RestoredImage(saved.value);
      }
    }

    /** `handleGenerate` up to the request: a blank prompt only sets the
        error; otherwise loading starts with the error and the old image
        cleared. */
    method Start() returns (proceed: bool)
      modifies this
      ensures proceed <==> !IsBlank(prompt)
      ensures prompt == old(prompt) && aspectRatio == old(aspectRatio) && style == old(style)
      ensures !proceed ==> error == Some(EmptyPromptMessage) && imageBase64 == old(imageBase64) && isLoading == old(isLoading)
      ensures proceed ==> isLoading && error == None && imageBase64 == None
    {
      if IsBlank(prompt) {
        error := Some(EmptyPromptMessage);
        return false;
      }
      isLoading := true;
      error := None;
      imageBase64 := None;
      proceed := true;
    }

    /** `handleGenerate` after the request: an image is shown and saved
        with the inputs that produced it; a failure shows its message and
        saves nothing; loading always ends. */
    method Finish(outcome: Outcome<string>, store: Store)
      modifies this, store
      ensures !isLoading && prompt == old(prompt) && aspectRatio == old(aspectRatio) && style == old(style)
      ensures store.readFails == old(store.readFails) && store.writeFails == old(store.writeFails)
      ensures outcome.Returned? ==>
                && imageBase64 == Some(outcome.value) && error == old(error)
                && store.cell == Saved(old(store.cell), store.readFails, store.writeFails, Tab.Image,
                                       SavedState(prompt, aspectRatio, style, outcome.value))
      ensures outcome.Threw? ==>
                && imageBase64 == old(imageBase64) && error == Some(CaughtMessage(outcome.thrown))
                && store.cell == old(store.cell)
    {
      match outcome {
        case Returned(result) =>
          imageBase64 := Some(result);
          store.SaveStateForTab(Tab.Image, SavedState(prompt, aspectRatio, style, result));
        case Threw(t) =>
          error := Some(CaughtMessage(t));
      }
      isLoading := false;
    }

    /** The whole `handleGenerate`, with the image service's reply given by
        `gateway`. */
    method HandleGenerate(gateway: ImageRequest -> Outcome<ImageReply>, store: Store)
      modifies this, store
      ensures prompt == old(prompt) && aspectRatio == old(aspectRatio) && style == old(style)
      ensures store.readFails == old(store.readFails) && store.writeFails == old(store.writeFails)
      ensures IsBlank(prompt) ==>
                && error == Some(EmptyPromptMessage) && imageBase64 == old(imageBase64) && isLoading == old(isLoading)
                && store.cell == old(store.cell)
      ensures !IsBlank(prompt) ==>
                var r := GenerateImage(prompt, aspectRatio, style, gateway);
                && !isLoading
                && (r.Returned? ==>
                      && imageBase64 == Some(r.value) && error == None
                      && store.cell == Saved(old(store.cell), store.readFails, store.writeFails, Tab.Image,
                                             SavedState(prompt, aspectRatio, style, r.value)))
                && (r.Threw? ==>
                      && imageBase64 == None && error == Some(r.thrown.message)
                      && store.cell == old(store.cell))
    {
      var proceed := Start();
      if proceed {
        var outcome := GenerateImage(prompt, aspectRatio, style, gateway);
        Finish(outcome, store);
      }
    }
  }
}
