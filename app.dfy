/**
 * The application state controller: the nine pieces of view state held by
 * the top-level component and the three handlers that change them. Each
 * handler is split where it waits (the two asynchronous handlers at their
 * `await`, the upload at the FileReader callbacks): a Start step (validation
 * guard and reset, run before the service call or the read), an optional
 * progress step, and a Settle step (the result or error, then the `finally`
 * cleanup). The
 * pure functions give each step's new state; the Controller class holds the
 * fields and its methods are proved to follow those functions.
 */
module App {
  import opened Wrappers
  import opened Text
  import GeminiService

  type AspectRatio = GeminiService.AspectRatio

  const DefaultAnimationPrompt := "Make the logo gently float and shimmer with a subtle glow."

  const EmptyDescriptionError := "Please enter a description for your logo."
  const LogoFailedError := "Failed to generate logo. Please try again."
  const ReadFailedError := "Failed to read the uploaded file."
  const NoLogoError := "Please generate or upload a logo first."
  const EmptyPromptError := "Please enter a prompt for the animation."
  const AnimateFailedPrefix := "Failed to animate logo: "
  const UnknownVideoError := "An unknown error occurred during video generation."
  // Written in pieces: the verifier reasons about the characters of each short piece.
  const KeySelectionError :=
    "API Key validation failed. " + "Please select a valid key " + "and try again."

  /** The view state; `None` is `null`. */
  datatype AppState = AppState(
    logoDescription: string,
    animationPrompt: string,
    generatedLogoUrl: Option<string>,
    generatedVideoUrl: Option<string>,
    aspectRatio: AspectRatio,
    isGeneratingLogo: bool,
    isGeneratingVideo: bool,
    videoGenerationProgress: string,
    error: Option<string>)

  /** The state when the application is first rendered. */
  const Initial := AppState("", DefaultAnimationPrompt, None, None, GeminiService.Landscape, false, false, "", None)

  /** The logo URL built from generated image bytes. */
  function JpegDataUrl(base64Image: string): string
  {
    GeminiService.DataUrlOf("image/jpeg", base64Image)
  }

  /** The generated logo's URL parses back into its MIME type and bytes. */
  lemma {:induction false} JpegDataUrlRoundTrip(base64Image: string)
    requires ',' !in base64Image
    ensures GeminiService.DataUrlToBase64(JpegDataUrl(base64Image)) == Ok(GeminiService.DataUrl(Some("image/jpeg"), base64Image))
  {
    var jpeg := "image/jpeg";
    assert ',' !in jpeg && ';' !in jpeg && ':' !in jpeg;
    GeminiService.DataUrlRoundTrip(jpeg, base64Image);
  }

  /** The animator panel is rendered only while a (truthy) logo URL exists. */
  predicate AnimatorMounted(s: AppState)
  {
    Truthy(s.generatedLogoUrl)
  }

  // ---------------------------------------------------------------------
  // handleGenerateLogo

  /** Guard and reset of `handleGenerateLogo`; the flag says whether the service is called. */
  function GenerateLogoStarted(s: AppState): (AppState, bool)
  {
    if s.logoDescription == "" then (s.(error := Some(EmptyDescriptionError)), false)
    else (s.(error := None, isGeneratingLogo := true, generatedLogoUrl := None, generatedVideoUrl := None), true)
  }

  /** Result or error of `generateLogo`, then the `finally` that releases the loading flag. */
  function GenerateLogoSettled(s: AppState, outcome: Result<string>): AppState
  {
    var t :=
      match outcome
      case Ok(base64Image) => s.(generatedLogoUrl := Some(JpegDataUrl(base64Image)))
      case Err(_) => s.(error := Some(LogoFailedError));
    t.(isGeneratingLogo := false)
  }

  /** The whole handler, with the service answering from the given image model. */
  function GenerateLogoHandled(s: AppState, apiKey: string, generateImages: GeminiService.ImageRequest -> GeminiService.ImagesOutcome): AppState
  {
    var (started, proceed) := GenerateLogoStarted(s);
    if !proceed then started
    else GenerateLogoSettled(started, GeminiService.GenerateLogo(apiKey, s.logoDescription, generateImages))
  }

  /** An empty description is rejected with only the error changed. */
  lemma GenerateLogoRejectsEmptyDescription(s: AppState)
    requires s.logoDescription == ""
    ensures GenerateLogoStarted(s) == (s.(error := Some(EmptyDescriptionError)), false)
  {
  }

  /**
   * With a description, before the service answers the error, the logo and
   * the video are cleared and the logo flag is set; nothing else changes.
   */
  lemma GenerateLogoResetsBeforeCall(s: AppState)
    requires s.logoDescription != ""
    ensures var (t, proceed) := GenerateLogoStarted(s);
      proceed && t.error == None && t.generatedLogoUrl == None && t.generatedVideoUrl == None &&
      t.isGeneratingLogo &&
      t == s.(error := None, isGeneratingLogo := true, generatedLogoUrl := None, generatedVideoUrl := None)
  {
  }

  /**
   * Once the handler completes the logo flag is down whatever the outcome;
   * on success the logo is the JPEG data URL of the bytes, on failure the
   * logo stays cleared and the fixed failure text is shown; the video stays
   * cleared either way.
   */
  lemma GenerateLogoOutcome(s: AppState, outcome: Result<string>)
    requires s.logoDescription != ""
    ensures var t := GenerateLogoSettled(GenerateLogoStarted(s).0, outcome);
      !t.isGeneratingLogo && t.generatedVideoUrl == None &&
      (outcome.Ok? ==> t.generatedLogoUrl == Some(JpegDataUrl(outcome.value)) && t.error == None) &&
      (outcome.Err? ==> t.generatedLogoUrl == None && t.error == Some(LogoFailedError))
  {
  }

  /**
   * End to end: when the image model returns images, the stored logo is a
   * JPEG data URL from which the service's own parser recovers exactly the
   * first image's bytes and MIME type (base64 has no commas).
   */
  lemma {:induction false} GeneratedLogoRoundTrip(s: AppState, apiKey: string, generateImages: GeminiService.ImageRequest -> GeminiService.ImagesOutcome, bytes: seq<string>)
    requires s.logoDescription != "" && apiKey != ""
    requires generateImages(GeminiService.ImageRequestFor(s.logoDescription)) == GeminiService.ImagesReturned(Some(bytes))
    requires |bytes| > 0 && ',' !in bytes[0]
    ensures var t := GenerateLogoHandled(s, apiKey, generateImages);
      t.generatedLogoUrl.Some? && !t.isGeneratingLogo && t.error == None && t.generatedVideoUrl == None &&
      GeminiService.DataUrlToBase64(t.generatedLogoUrl.value) == Ok(GeminiService.DataUrl(Some("image/jpeg"), bytes[0]))
  {
    assert GeminiService.GenerateLogo(apiKey, s.logoDescription, generateImages) == Ok(bytes[0]);
    JpegDataUrlRoundTrip(bytes[0]);
  }

  // ---------------------------------------------------------------------
  // handleImageUpload

  /** The synchronous part of `handleImageUpload`, before the file is read. */
  function UploadStarted(s: AppState): AppState
  {
    s.(error := None, generatedVideoUrl := None)
  }

  /**
   * The reader's callbacks. A successful read stores its data URL. On a
   * failed read `onerror` sets the read error and then `onloadend` (which
   * the browser fires after every read) stores the reader's `null` result.
   */
  function UploadSettled(s: AppState, read: Option<string>): AppState
  {
    match read
    case Some(dataUrl) => s.(generatedLogoUrl := Some(dataUrl))
    case None => s.(error := Some(ReadFailedError), generatedLogoUrl := None)
  }

  /** Starting an upload clears the error and the video but keeps the logo and both flags. */
  lemma UploadStartKeepsLogo(s: AppState)
    ensures var t := UploadStarted(s);
      t.error == None && t.generatedVideoUrl == None && t.generatedLogoUrl == s.generatedLogoUrl &&
      t.isGeneratingLogo == s.isGeneratingLogo && t.isGeneratingVideo == s.isGeneratingVideo
  {
  }

  /** After the read the logo is the read data URL, or on failure the read error is set. */
  lemma UploadOutcome(s: AppState, read: Option<string>)
    ensures var t := UploadSettled(UploadStarted(s), read);
      t.generatedVideoUrl == None &&
      (read.Some? ==> t.generatedLogoUrl == read && t.error == None) &&
      (read.None? ==> t.error == Some(ReadFailedError) && t.generatedLogoUrl == None && !AnimatorMounted(t))
  {
  }

  // ---------------------------------------------------------------------
  // handleAnimateLogo

  /** Guard and reset of `handleAnimateLogo`: a logo is checked first, then the prompt. */
  function AnimateStarted(s: AppState): (AppState, bool)
  {
    if !Truthy(s.generatedLogoUrl) then (s.(error := Some(NoLogoError)), false)
    else if s.animationPrompt == "" then (s.(error := Some(EmptyPromptError)), false)
    else (s.(error := None, isGeneratingVideo := true, generatedVideoUrl := None), true)
  }

  /** The progress callback shows the latest message. */
  function ProgressReported(s: AppState, message: string): AppState
  {
    s.(videoGenerationProgress := message)
  }

  /** The state after the callback has received `messages` in order. */
  function ProgressReportedAll(s: AppState, messages: seq<string>): (t: AppState)
    ensures t.videoGenerationProgress == if messages == [] then s.videoGenerationProgress else messages[|messages| - 1]
    ensures t == s.(videoGenerationProgress := t.videoGenerationProgress)
    decreases |messages|
  {
    if messages == [] then s
    else ProgressReported(ProgressReportedAll(s, messages[..|messages| - 1]), messages[|messages| - 1])
  }

  /**
   * The error text for a rejected animation: the rejection's message (or a
   * default when it has none) after the fixed prefix, replaced by the key
   * selection text when that message holds the entity-not-found signature.
   */
  function AnimateFailureText(message: string): (text: string)
    ensures var m := if message == "" then UnknownVideoError else message;
      (Includes(m, GeminiService.EntityNotFound) ==> text == KeySelectionError) &&
      (!Includes(m, GeminiService.EntityNotFound) ==> text == AnimateFailedPrefix + m)
  {
    var errorMessage := if message == "" then UnknownVideoError else message;
    if Includes(errorMessage, GeminiService.EntityNotFound) then KeySelectionError
    else AnimateFailedPrefix + errorMessage
  }

  /** Result or error of `animateLogo`, then the `finally` cleanup. */
  function AnimateSettled(s: AppState, outcome: Result<string>): AppState
  {
    var t :=
      match outcome
      case Ok(videoUrl) => s.(generatedVideoUrl := Some(videoUrl))
      case Err(m) => s.(error := Some(AnimateFailureText(m)));
    t.(isGeneratingVideo := false, videoGenerationProgress := "")
  }

  /**
   * The whole handler, with the service answering from the given backend:
   * every message the service emits reaches the callback, and a call that
   * has not settled leaves the state as the last callback left it.
   */
  function AnimateLogoHandled(s: AppState, apiKey: string, backend: GeminiService.VideoBackend): AppState
  {
    var (started, proceed) := AnimateStarted(s);
    if !proceed then started
    else
      var (outcome, progress) :=
        GeminiService.AnimateLogoSpec(apiKey, s.animationPrompt, s.generatedLogoUrl.value, s.aspectRatio, backend);
      var reported := ProgressReportedAll(started, progress);
      match outcome
      case StillPolling => reported
      case Animated(url) => AnimateSettled(reported, Ok(url))
      case Failed(m) => AnimateSettled(reported, Err(m))
  }

  /**
   * Validation: a missing logo is reported first, an empty prompt second;
   * a rejection changes nothing but the error and does not call the service.
   */
  lemma AnimateValidation(s: AppState)
    ensures !Truthy(s.generatedLogoUrl) ==> AnimateStarted(s) == (s.(error := Some(NoLogoError)), false)
    ensures Truthy(s.generatedLogoUrl) && s.animationPrompt == "" ==>
      AnimateStarted(s) == (s.(error := Some(EmptyPromptError)), false)
    ensures AnimateStarted(s).1 <==> Truthy(s.generatedLogoUrl) && s.animationPrompt != ""
  {
  }

  /**
   * While the job runs the video flag is up, the old video and error are
   * cleared and the progress text is the latest message.
   */
  lemma AnimateProgress(s: AppState, progress: seq<string>)
    requires AnimateStarted(s).1
    ensures var running := ProgressReportedAll(AnimateStarted(s).0, progress);
      running.isGeneratingVideo && running.generatedVideoUrl == None && running.error == None &&
      (progress != [] ==> running.videoGenerationProgress == progress[|progress| - 1])
  {
  }

  /**
   * Once the promise settles the video flag is down and the progress text
   * empty, whatever the outcome; a success stores the returned URL and a
   * failure shows its text, each leaving the other field alone.
   */
  lemma AnimateCleanup(running: AppState, outcome: Result<string>)
    ensures var t := AnimateSettled(running, outcome);
      !t.isGeneratingVideo && t.videoGenerationProgress == "" &&
      (outcome.Ok? ==> t.generatedVideoUrl == Some(outcome.value) && t.error == running.error) &&
      (outcome.Err? ==> t.generatedVideoUrl == running.generatedVideoUrl &&
                        t.error == Some(AnimateFailureText(outcome.message)))
  {
  }

  /**
   * The override quirk. A poll that fails with the entity-not-found
   * signature has already been rewritten by the service, so the application
   * shows the prefixed service text, never its own key-selection text; the
   * same signature in the rejection of the job submission (which the service
   * does not rewrite) does produce the key-selection text.
   */
  lemma {:induction false} EntityNotFoundOverride(s: AppState, apiKey: string, backend: GeminiService.VideoBackend, message: string)
    requires AnimateStarted(s).1 && apiKey != ""
    requires GeminiService.DataUrlToBase64(s.generatedLogoUrl.value).Ok?
    requires Includes(message, GeminiService.EntityNotFound)
    ensures var request := GeminiService.VideoRequestFor(s.animationPrompt,
                             GeminiService.DataUrlToBase64(s.generatedLogoUrl.value).value, s.aspectRatio);
      backend.generateVideos(request) == GeminiService.Threw(message) ==>
        AnimateLogoHandled(s, apiKey, backend).error == Some(KeySelectionError)
    ensures var request := GeminiService.VideoRequestFor(s.animationPrompt,
                             GeminiService.DataUrlToBase64(s.generatedLogoUrl.value).value, s.aspectRatio);
      var polls := backend.getVideosOperation;
      var k := GeminiService.FirstConclusion(polls);
      backend.generateVideos(request).Returned? && !backend.generateVideos(request).operation.done &&
      k < |polls| && polls[k] == GeminiService.Threw(message) ==>
        AnimateLogoHandled(s, apiKey, backend).error ==
          Some(AnimateFailedPrefix + GeminiService.KeyValidationFailed)
  {
    GeminiService.KeyValidationMessageLacksSignature();
  }

  // ---------------------------------------------------------------------
  // The stateful component

  /** The top-level component's state, one field per `useState` hook. */
  class Controller {
    var logoDescription: string
    var animationPrompt: string
    var generatedLogoUrl: Option<string>
    var generatedVideoUrl: Option<string>
    var aspectRatio: AspectRatio
    var isGeneratingLogo: bool
    var isGeneratingVideo: bool
    var videoGenerationProgress: string
    var error: Option<string>

    function State(): AppState
      reads this
    {
      AppState(logoDescription, animationPrompt, generatedLogoUrl, generatedVideoUrl, aspectRatio,
               isGeneratingLogo, isGeneratingVideo, videoGenerationProgress, error)
    }

    constructor ()
      ensures State() == Initial
    {
      logoDescription := "";
      animationPrompt := DefaultAnimationPrompt;
      generatedLogoUrl := None;
      generatedVideoUrl := None;
      aspectRatio := GeminiService.Landscape;
      isGeneratingLogo := false;
      isGeneratingVideo := false;
      videoGenerationProgress := "";
      error := None;
    }

    /** `onDescriptionChange`. */
    method SetLogoDescription(description: string)
      modifies this
      ensures State() == old(State()).(logoDescription := description)
    {
      logoDescription := description;
    }

    /** `onPromptChange`. */
    method SetAnimationPrompt(prompt: string)
      modifies this
      ensures State() == old(State()).(animationPrompt := prompt)
    {
      animationPrompt := prompt;
    }

    /** `onAspectRatioChange`. */
    method SetAspectRatio(ratio: AspectRatio)
      modifies this
      ensures State() == old(State()).(aspectRatio := ratio)
    {
      aspectRatio := ratio;
    }

    /** `clearError`, handed to the animator panel. */
    method ClearError()
      modifies this
      ensures State() == old(State()).(error := None)
    {
      error := None;
    }

    method StartGenerateLogo() returns (proceed: bool)
      modifies this
      ensures (State(), proceed) == GenerateLogoStarted(old(State()))
    {
      if logoDescription == "" {
        error := Some(EmptyDescriptionError);
        return false;
      }
      error := None;
      isGeneratingLogo := true;
      generatedLogoUrl := None;
      generatedVideoUrl := None;
      proceed := true;
    }

    method SettleGenerateLogo(outcome: Result<string>)
      modifies this
      ensures State() == GenerateLogoSettled(old(State()), outcome)
    {
      if outcome.Ok? {
        generatedLogoUrl := Some(JpegDataUrl(outcome.value));
      } else {
        error := Some(LogoFailedError);
      }
      isGeneratingLogo := false;
    }

    /** `handleGenerateLogo`: `requested` says whether the service (`generateLogo`) was called. */
    method HandleGenerateLogo(apiKey: string, generateImages: GeminiService.ImageRequest -> GeminiService.ImagesOutcome)
      returns (requested: bool)
      modifies this
      ensures requested <==> old(logoDescription) != ""
      ensures State() == GenerateLogoHandled(old(State()), apiKey, generateImages)
    {
      var description := logoDescription;
      requested := StartGenerateLogo();
      if requested {
        var base64Image := GeminiService.GenerateLogo(apiKey, description, generateImages);
        SettleGenerateLogo(base64Image);
      }
    }

    method StartImageUpload()
      modifies this
      ensures State() == UploadStarted(old(State()))
    {
      error := None;
      generatedVideoUrl := None;
    }

    method SettleImageUpload(read: Option<string>)
      modifies this
      ensures State() == UploadSettled(old(State()), read)
    {
      match read
      case Some(dataUrl) =>
        generatedLogoUrl := Some(dataUrl);
      case None =>
        error := Some(ReadFailedError);
        generatedLogoUrl := None;
    }

    /** `handleImageUpload` with the reader's outcome (`None` for a failed read). */
    method HandleImageUpload(read: Option<string>)
      modifies this
      ensures State() == UploadSettled(UploadStarted(old(State())), read)
    {
      StartImageUpload();
      SettleImageUpload(read);
    }

    method StartAnimateLogo() returns (proceed: bool)
      modifies this
      ensures (State(), proceed) == AnimateStarted(old(State()))
    {
      if !Truthy(generatedLogoUrl) {
        error := Some(NoLogoError);
        return false;
      }
      if animationPrompt == "" {
        error := Some(EmptyPromptError);
        return false;
      }
      error := None;
      isGeneratingVideo := true;
      generatedVideoUrl := None;
      proceed := true;
    }

    /** The progress callback. */
    method ReportProgress(message: string)
      modifies this
      ensures State() == ProgressReported(old(State()), message)
    {
      videoGenerationProgress := message;
    }

    /** The progress callback, invoked once per message in order. */
    method ReportAll(messages: seq<string>)
      modifies this
      ensures State() == ProgressReportedAll(old(State()), messages)
    {
      ghost var before := State();
      for i := 0 to |messages|
        invariant State() == ProgressReportedAll(before, messages[..i])
      {
        assert messages[..i + 1][..i] == messages[..i];
        ReportProgress(messages[i]);
      }
      assert messages[..|messages|] == messages;
    }

    method SettleAnimateLogo(outcome: Result<string>)
      modifies this
      ensures State() == AnimateSettled(old(State()), outcome)
    {
      if outcome.Ok? {
        generatedVideoUrl := Some(outcome.value);
      } else {
        error := Some(AnimateFailureText(outcome.message));
      }
      isGeneratingVideo := false;
      videoGenerationProgress := "";
    }

    /**
     * `handleAnimateLogo`: `requested` says whether the service was called.
     * The messages the service passed to the progress callback are applied
     * in order.
     */
    method HandleAnimateLogo(apiKey: string, backend: GeminiService.VideoBackend) returns (requested: bool)
      modifies this
      ensures requested <==> Truthy(old(generatedLogoUrl)) && old(animationPrompt) != ""
      ensures State() == AnimateLogoHandled(old(State()), apiKey, backend)
    {
      ghost var before := State();
      requested := StartAnimateLogo();
      if !requested {
        return;
      }
      ghost var started := State();
      var outcome, progress :=
        GeminiService.AnimateLogo(apiKey, animationPrompt, generatedLogoUrl.value, aspectRatio, backend);
      ReportAll(progress);
      match outcome
      case StillPolling =>
      case Animated(url) =>
        SettleAnimateLogo(Ok(url));
      case Failed(m) =>
        SettleAnimateLogo(Err(m));
    }
  }
}
