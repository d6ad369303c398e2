/**
 * The ImageGenerator component of src/components/ImageGenerator.js: its six
 * pieces of state, the handlers that update them, and the conditions under
 * which the page shows the spinner, the error, the image, the success note
 * and the download button.
 *
 * The state is given twice.  View and the functions on it say what each
 * handler does to the whole state; the class ImageGenerator keeps the six
 * fields and updates them in place, each handler proved to do what its
 * function says.  handleGenerate is asynchronous, so it is split at its
 * await: Submit is the part before it and Complete the part after the
 * service settles.
 */
module ImageGeneratorUi {
  import opened Wrappers
  import opened Utf16
  import opened ImageService

  // The long messages are split into pieces of at most about forty
  // characters, as in ImageService, so that the verifier need not unfold one
  // long literal; the joined text is the component's message.
  const EmptyPromptMessage: string :=
    "Please enter a description for the " + "image you want to generate."
  const GenerationFallbackMessage: string := "Failed to generate image. " + "Please try again."
  const ImageLoadFailedMessage: string := "Failed to load the generated image. " + "Please try again."

  /** The six useState values of the component. */
  datatype View = View(
    prompt: Text,
    isLoading: bool,
    generatedImage: Option<string>,
    error: string,
    imageLoading: bool,
    imageLoaded: bool)

  /** The state on first render: an empty prompt, nothing generated, no error. */
  function Initial(): (v: View)
    ensures Consistent(v)
  {
    View([], false, None, "", false, false)
  }

  /**
   * The state the handlers keep: the image is never loading and loaded at
   * once; it can only be loading when there is one; and while a request is
   * in flight there is no image and neither image flag is set.
   */
  predicate Consistent(v: View)
  {
    && !(v.imageLoading && v.imageLoaded)
    && (v.imageLoading ==> v.generatedImage.Some?)
    && (v.isLoading ==> v.generatedImage.None? && !v.imageLoading && !v.imageLoaded)
  }

  /** The generated image URL is truthy: set and not the empty string. */
  predicate HasImage(v: View)
  {
    v.generatedImage.Some? && v.generatedImage.value != ""
  }

  // ---------------------------------------------------------------------
  // What the page shows

  /** The generate button is disabled while a request is in flight or the prompt trims to nothing. */
  predicate GenerateDisabled(v: View)
  {
    v.isLoading || Trim(v.prompt) == []
  }

  predicate ShowsSpinner(v: View) { v.isLoading }

  predicate ShowsError(v: View) { v.error != "" }

  /** The result block, and with it the image element and its load handlers, is mounted. */
  predicate ShowsResult(v: View) { HasImage(v) && !v.isLoading }

  predicate ShowsImageLoading(v: View) { ShowsResult(v) && v.imageLoading }

  predicate ShowsSuccess(v: View) { ShowsResult(v) && v.imageLoaded && !v.imageLoading }

  predicate ShowsDownload(v: View) { ShowsResult(v) && v.imageLoaded && !v.imageLoading }

  function ButtonLabel(v: View): string
  {
    if v.isLoading then "Generating..." else "Generate Image"
  }

  // ---------------------------------------------------------------------
  // The handlers, on the whole state

  /** The text area's onChange: only the prompt changes. */
  function ChangePrompt(v: View, text: Text): View
  {
    v.(prompt := text)
  }

  /**
   * handleGenerate up to its await: a prompt that trims to nothing only sets
   * the validation error; otherwise the request starts and everything from
   * the previous result is cleared.
   */
  function Submit(v: View): View
  {
    if Trim(v.prompt) == [] then v.(error := EmptyPromptMessage)
    else v.(isLoading := true, error := "", generatedImage := None, imageLoading := false, imageLoaded := false)
  }

  /** The prompt handleGenerate passes to generateImage: the untrimmed text, when it passes the check. */
  function Submitted(v: View): Option<Text>
  {
    if Trim(v.prompt) == [] then None else Some(v.prompt)
  }

  /**
   * handleGenerate after its await: a resolved URL becomes the image and
   * starts it loading; a rejection shows its message, or the fallback text
   * when the message is empty; either way the request is over.  While the
   * service has not settled, nothing changes.
   */
  function Complete(v: View, outcome: Settlement): View
  {
    match outcome
    case Resolved(url) => v.(generatedImage := Some(url), imageLoading := true, isLoading := false)
    case Rejected(message) =>
      v.(error := if message != "" then message else GenerationFallbackMessage, isLoading := false)
    case Pending => v
  }

  /** handleImageLoad. */
  function ImageLoad(v: View): View
  {
    v.(imageLoading := false, imageLoaded := true)
  }

  /** handleImageError. */
  function ImageError(v: View): View
  {
    v.(imageLoading := false, imageLoaded := false, error := ImageLoadFailedMessage)
  }

  /** handleDownload: the URL the link downloads, when the image is truthy. */
  function DownloadTarget(v: View): Option<string>
  {
    if HasImage(v) then Some(v.generatedImage.value) else None
  }

  /** handleKeyPress: Ctrl+Enter runs handleGenerate; any other key does nothing. */
  predicate IsGenerateShortcut(key: string, ctrlKey: bool)
  {
    key == "Enter" && ctrlKey
  }

  // ---------------------------------------------------------------------
  // Properties

  /** Every handler keeps the state consistent; the completion and the image handlers need the conditions under which the page can call them. */
  lemma HandlersKeepConsistent(v: View, text: Text, outcome: Settlement)
    requires Consistent(v)
    ensures Consistent(ChangePrompt(v, text))
    ensures Consistent(Submit(v))
    ensures v.isLoading ==> Consistent(Complete(v, outcome))
    ensures ShowsResult(v) ==> Consistent(ImageLoad(v)) && Consistent(ImageError(v))
  {
  }

  /**
   * The completion after a load that finished while the request was still in
   * flight would break the state: the page rules that order out by mounting
   * the image, and with it its onLoad handler, only once the request is over.
   */
  lemma LoadDuringRequestBreaksConsistency(v: View, url: string)
    requires Consistent(v) && v.isLoading
    ensures !Consistent(Complete(ImageLoad(v), Resolved(url)))
  {
  }

  /** Submitting starts a request exactly when the button would be enabled by the prompt, and passes the untrimmed prompt. */
  lemma SubmitStartsIff(v: View)
    ensures Submitted(v).Some? <==> Trim(v.prompt) != []
    ensures Submitted(v).Some? ==> Submitted(v).value == v.prompt && Submit(v).isLoading
    ensures Submitted(v).None? ==> Submit(v) == v.(error := EmptyPromptMessage)
    ensures !GenerateDisabled(v) ==> Submitted(v).Some?
  {
  }

  /** A prompt the component lets through always passes the guard of generateImage. */
  lemma SubmittedPassesServiceGuard(v: View)
    requires Submitted(v).Some?
    ensures ValidPrompt(Submitted(v))
  {
  }

  /**
   * After a request the component itself submitted, the error shown is
   * either nothing or the terminal message of generateImage: the service's
   * validation message and the component's fallback text never appear.
   */
  lemma ErrorAfterRequest(v: View, env: Environment)
    requires Submitted(v).Some?
    ensures var w := Complete(Submit(v), GenerateImage(Submitted(v), env).result);
            w.error == "" || w.error == TerminalMessage
    ensures var w := Complete(Submit(v), GenerateImage(Submitted(v), env).result);
            w.error != GenerationFallbackMessage && w.error != InvalidPromptMessage
  {
    var settled := RequestResult(v, env);
    MessagesDiffer();
  }

  /** The service's answer to a request the component submitted rejects, if at all, with the terminal message. */
  lemma RequestResult(v: View, env: Environment) returns (settled: Settlement)
    requires Submitted(v).Some?
    ensures settled == GenerateImage(Submitted(v), env).result
    ensures settled.Rejected? ==> settled.message == TerminalMessage
  {
    settled := GenerateImage(Submitted(v), env).result;
    RejectionMessages(Submitted(v), env);
    ValidationGuard(Submitted(v), env);
  }

  lemma MessagesDiffer()
    ensures TerminalMessage != "" && TerminalMessage != GenerationFallbackMessage && TerminalMessage != InvalidPromptMessage
  {
    assert TerminalMessage[0] == 'U' && GenerationFallbackMessage[0] == 'F' && InvalidPromptMessage[0] == 'P';
  }

  /** A resolved request always leaves an image element mounted and loading, so its onLoad or onError can follow. */
  lemma ResolvedRequestShowsLoading(v: View, url: string)
    requires v.isLoading && url != ""
    ensures ShowsImageLoading(Complete(v, Resolved(url)))
    ensures !ShowsSuccess(Complete(v, Resolved(url))) && !ShowsDownload(Complete(v, Resolved(url)))
  {
  }

  /**
   * The button reads "Generating..." exactly while the spinner shows, and
   * when it is disabled outside a request, a click would only have set the
   * validation error.
   */
  lemma ButtonState(v: View)
    ensures ButtonLabel(v) == "Generating..." <==> ShowsSpinner(v)
    ensures GenerateDisabled(v) <==> v.isLoading || Submitted(v).None?
  {
  }

  /** In a consistent state the loading note and the success note are never shown together, nor the spinner and the result. */
  lemma RenderExclusive(v: View)
    requires Consistent(v)
    ensures !(ShowsImageLoading(v) && ShowsSuccess(v))
    ensures !(ShowsSpinner(v) && ShowsResult(v))
    ensures ShowsSuccess(v) <==> ShowsDownload(v)
  {
  }

  /** Whenever the download button is shown, clicking it downloads the generated image. */
  lemma DownloadButtonWorks(v: View)
    requires ShowsDownload(v)
    ensures DownloadTarget(v) == Some(v.generatedImage.value)
  {
  }

  /** After a load the success note and the download button appear; after a load error they go and the error shows. */
  lemma ImageEventsRender(v: View)
    requires ShowsResult(v)
    ensures ShowsSuccess(ImageLoad(v)) && ShowsDownload(ImageLoad(v))
    ensures !ShowsSuccess(ImageError(v)) && !ShowsDownload(ImageError(v)) && ShowsError(ImageError(v))
  {
    assert ImageLoadFailedMessage[0] == 'F';
  }

  // ---------------------------------------------------------------------
  // The component

  /** The component instance: its six state variables, updated by its handlers. */
  class ImageGenerator {
    var prompt: Text
    var isLoading: bool
    var generatedImage: Option<string>
    var error: string
    var imageLoading: bool
    var imageLoaded: bool

    /** The component's state as one value. */
    function State(): View
      reads this
    {
      View(prompt, isLoading, generatedImage, error, imageLoading, imageLoaded)
    }

    ghost predicate Valid()
      reads this
    {
      Consistent(State())
    }

    constructor ()
      ensures State() == Initial() && Valid()
    {
      prompt := [];
      isLoading := false;
      generatedImage := None;
      error := "";
      imageLoading := false;
      imageLoaded := false;
    }

    /** The text area's onChange; the text area is disabled during a request. */
    method ChangePromptText(text: Text)
      requires Valid() && !isLoading
      modifies this
      ensures Valid() && State() == ChangePrompt(old(State()), text)
    {
      prompt := text;
      HandlersKeepConsistent(old(State()), text, Pending);
    }

    /** handleGenerate up to its await; request is the prompt it hands to generateImage, if any. */
    method HandleGenerate() returns (request: Option<Text>)
      requires Valid()
      modifies this
      ensures Valid() && State() == Submit(old(State()))
      ensures request == Submitted(old(State()))
    {
      if Trim(prompt) == [] {
        error := EmptyPromptMessage;
        request := None;
        return;
      }
      isLoading := true;
      error := "";
      generatedImage := None;
      imageLoading := false;
      imageLoaded := false;
      request := Some(prompt);
    }

    /** handleGenerate after generateImage has settled (or, while pending, not at all). */
    method HandleGenerateSettled(outcome: Settlement)
      requires Valid() && isLoading
      modifies this
      ensures Valid() && State() == Complete(old(State()), outcome)
    {
      HandlersKeepConsistent(State(), prompt, outcome);
      match outcome {
        case Resolved(url) =>
          generatedImage := Some(url);
          imageLoading := true;
          isLoading := false;
        case Rejected(message) =>
          error := if message != "" then message else GenerationFallbackMessage;
          isLoading := false;
        case Pending =>
      }
    }

    /** handleImageLoad; the page only calls it while the image element is mounted. */
    method HandleImageLoad()
      requires Valid() && ShowsResult(State())
      modifies this
      ensures Valid() && State() == ImageLoad(old(State()))
    {
      HandlersKeepConsistent(State(), prompt, Pending);
      imageLoading := false;
      imageLoaded := true;
    }

    /** handleImageError; the page only calls it while the image element is mounted. */
    method HandleImageError()
      requires Valid() && ShowsResult(State())
      modifies this
      ensures Valid() && State() == ImageError(old(State()))
    {
      HandlersKeepConsistent(State(), prompt, Pending);
      imageLoading := false;
      imageLoaded := false;
      error := ImageLoadFailedMessage;
    }

    /** handleDownload: the URL it downloads, if the image is truthy; the state does not change. */
    method HandleDownload() returns (download: Option<string>)
      ensures download == DownloadTarget(State())
      ensures download.Some? <==> generatedImage.Some? && generatedImage.value != ""
    {
      if generatedImage.Some? && generatedImage.value != "" {
        download := Some(generatedImage.value);
      } else {
        download := None;
      }
    }

    /** handleKeyPress: Ctrl+Enter runs handleGenerate, any other key changes nothing; the text area is disabled during a request. */
    method HandleKeyPress(key: string, ctrlKey: bool) returns (request: Option<Text>)
      requires Valid() && !isLoading
      modifies this
      ensures Valid()
      ensures State() == if IsGenerateShortcut(key, ctrlKey) then Submit(old(State())) else old(State())
      ensures request == if IsGenerateShortcut(key, ctrlKey) then Submitted(old(State())) else None
    {
      if key == "Enter" && ctrlKey {
        request := HandleGenerate();
      } else {
        request := None;
      }
    }
  }

  /**
   * One Generate click answered by the service: with a prompt the component
   * lets through, the request always ends with no error or the terminal
   * message, and never with the component's own fallback text.
   */
  method GenerateAndSettle(generator: ImageGenerator, env: Environment) returns (request: Option<Text>)
    requires generator.Valid() && Trim(generator.prompt) != []
    modifies generator
    ensures generator.Valid()
    ensures request == Some(old(generator.prompt))
    ensures generator.State() == Complete(Submit(old(generator.State())), GenerateImage(request, env).result)
    ensures generator.error == "" || generator.error == TerminalMessage
  {
    ghost var before := generator.State();
    request := generator.HandleGenerate();
    generator.HandleGenerateSettled(GenerateImage(request, env).result);
    ErrorAfterRequest(before, env);
  }
}
