/**
 * The animation panel: its API key check against the hosting environment,
 * the gate in front of the animate handler, and the rules that choose the
 * button's state and label, the billing notice, the preview and the error
 * it displays.
 */
module VideoAnimator {
  import opened Wrappers
  import opened Text
  import App
  import LogoGenerator
  import GeminiService

  /**
   * The hosting environment. Outside AI Studio there is no key bridge.
   * Inside it, `hasSelectedApiKey` answers or rejects, and `openSelectKey`
   * resolves (`true`) or rejects (`false`).
   */
  datatype Host = Standalone | AIStudio(hasSelectedApiKey: Result<bool>, openSelectKeyResolves: bool)

  /** The key state the check settles on: assumed present outside AI Studio, otherwise the bridge's answer, `false` if it rejects. */
  function KeyCheckResult(host: Host): (selected: bool)
    ensures selected <==> host.Standalone? || host.hasSelectedApiKey == Ok(true)
  {
    match host
    case Standalone => true
    case AIStudio(answer, _) => answer.Ok? && answer.value
  }

  /** What a click on the animate button does. */
  datatype ClickEffect =
    | Animate            // the application's animate handler runs
    | KeyDialogResolved  // the key dialog was shown and resolved; the user must click again
    | KeyDialogRejected  // the key dialog failed; nothing else happens

  /**
   * The gate of `handleAnimateClick`: inside AI Studio without a selected
   * key the click only opens the key dialog; the new key flag is returned
   * alongside the effect.
   */
  function Click(host: Host, apiKeySelected: bool): (ClickEffect, bool)
  {
    if host.AIStudio? && !apiKeySelected then
      if host.openSelectKeyResolves then (KeyDialogResolved, true) else (KeyDialogRejected, apiKeySelected)
    else (Animate, apiKeySelected)
  }

  /**
   * Key gating: the animate handler runs exactly when there is no bridge or
   * a key is already selected; a click never clears the key flag, and it
   * sets it exactly when the dialog resolves.
   */
  lemma ClickGating(host: Host, apiKeySelected: bool)
    ensures Click(host, apiKeySelected).0 == Animate <==> host.Standalone? || apiKeySelected
    ensures apiKeySelected ==> Click(host, apiKeySelected).1
    ensures Click(host, apiKeySelected).1 != apiKeySelected <==> Click(host, apiKeySelected).0 == KeyDialogResolved
  {
  }

  /** After the key dialog resolves, the next click runs the animate handler. */
  lemma SecondClickProceeds(host: Host, apiKeySelected: bool)
    requires Click(host, apiKeySelected).0 == KeyDialogResolved
    ensures Click(host, Click(host, apiKeySelected).1).0 == Animate
  {
  }

  /** A rejected key dialog leaves the gate closed: clicking again opens the dialog again. */
  lemma RejectedDialogKeepsGate(host: Host, apiKeySelected: bool)
    requires Click(host, apiKeySelected).0 == KeyDialogRejected
    ensures Click(host, Click(host, apiKeySelected).1) == Click(host, apiKeySelected)
    ensures forall h: Host :: h.AIStudio? ==> Click(h, Click(host, apiKeySelected).1).0 != Animate
  {
  }

  /** The text on the animate button. */
  datatype Label = Verifying | Animating | SelectKeyAndAnimate | AnimateLogo
  {
    function Text(): string
    {
      match this
      case Verifying => "Verifying..."
      case Animating => "Animating..."
      case SelectKeyAndAnimate => "Select API Key & Animate"
      case AnimateLogo => "Animate Logo"
    }
  }

  /** The button is disabled while a video is generated or the key is being checked. */
  predicate AnimateDisabled(isLoading: bool, isCheckingApiKey: bool)
  {
    isLoading || isCheckingApiKey
  }

  /** The label, by priority: the key check, then loading, then a missing key. */
  function ButtonLabel(isCheckingApiKey: bool, isLoading: bool, apiKeySelected: bool): (l: Label)
    ensures l == Verifying <==> isCheckingApiKey
    ensures l == Animating <==> !isCheckingApiKey && isLoading
    ensures l == SelectKeyAndAnimate <==> !isCheckingApiKey && !isLoading && !apiKeySelected
    ensures l == AnimateLogo <==> !isCheckingApiKey && !isLoading && apiKeySelected
    ensures l.Text() == "Verifying..." <==> isCheckingApiKey
    ensures l.Text() == "Animating..." <==> !isCheckingApiKey && isLoading
    ensures l.Text() == "Select API Key & Animate" <==> !isCheckingApiKey && !isLoading && !apiKeySelected
    ensures l.Text() == "Animate Logo" <==> !isCheckingApiKey && !isLoading && apiKeySelected
  {
    if isCheckingApiKey then Verifying
    else if isLoading then Animating
    else if !apiKeySelected then SelectKeyAndAnimate
    else AnimateLogo
  }

  /** The button is disabled exactly when its label says it is busy. */
  lemma DisabledIffBusyLabel(isCheckingApiKey: bool, isLoading: bool, apiKeySelected: bool)
    ensures AnimateDisabled(isLoading, isCheckingApiKey) <==>
      ButtonLabel(isCheckingApiKey, isLoading, apiKeySelected) in {Verifying, Animating}
  {
  }

  /** The billing notice: inside AI Studio, once the check is over, while no key is selected. */
  predicate BillingNoticeShown(host: Host, apiKeySelected: bool, isCheckingApiKey: bool)
  {
    host.AIStudio? && !apiKeySelected && !isCheckingApiKey
  }

  /**
   * The notice appears only beside an enabled "select key" button or a busy
   * one, and whenever it is shown a click opens the key dialog instead of
   * animating.
   */
  lemma BillingNoticeMeansKeyDialog(host: Host, apiKeySelected: bool, isCheckingApiKey: bool, isLoading: bool)
    requires BillingNoticeShown(host, apiKeySelected, isCheckingApiKey)
    ensures ButtonLabel(isCheckingApiKey, isLoading, apiKeySelected) in {SelectKeyAndAnimate, Animating}
    ensures Click(host, apiKeySelected).0 != Animate
  {
  }

  /** What the preview area shows. */
  datatype Preview = ShowProgress(message: string) | ShowVideo(url: string) | ShowPlaceholder

  /** Loading wins over a video, and a video is shown only when its URL is truthy. */
  function PreviewOf(isLoading: bool, videoUrl: Option<string>, progressMessage: string): (p: Preview)
    ensures p.ShowProgress? <==> isLoading
    ensures p.ShowProgress? ==> p.message == progressMessage
    ensures p.ShowVideo? <==> !isLoading && Truthy(videoUrl)
    ensures p.ShowVideo? ==> p.url == videoUrl.value
  {
    if isLoading then ShowProgress(progressMessage)
    else if Truthy(videoUrl) then ShowVideo(videoUrl.value)
    else ShowPlaceholder
  }

  /** The preview for the application's current state. */
  function PreviewFor(s: App.AppState): Preview
  {
    PreviewOf(s.isGeneratingVideo, s.generatedVideoUrl, s.videoGenerationProgress)
  }

  /**
   * While an animation runs (the handler has raised the video flag) the
   * preview shows the latest progress message.
   */
  lemma PreviewWhileAnimating(started: App.AppState, progress: seq<string>)
    requires started.isGeneratingVideo && progress != []
    ensures PreviewFor(App.ProgressReportedAll(started, progress)) == ShowProgress(progress[|progress| - 1])
  {
  }

  /**
   * Once an animation settles, a returned (non-empty) URL is played and a
   * failure leaves the placeholder, since the run cleared the old video.
   */
  lemma PreviewAfterAnimation(running: App.AppState, outcome: Result<string>)
    requires running.generatedVideoUrl == None
    ensures outcome.Ok? && outcome.value != "" ==>
      PreviewFor(App.AnimateSettled(running, outcome)) == ShowVideo(outcome.value)
    ensures outcome.Err? ==> PreviewFor(App.AnimateSettled(running, outcome)) == ShowPlaceholder
  {
  }

  /** The panel shows a present, non-empty error exactly when its text does not mention a logo. */
  predicate ShowsError(error: Option<string>)
  {
    Truthy(error) && !Includes(error.value, LogoGenerator.LogoWord)
  }

  /** How many of the mounted panels display the application's error. */
  function PanelsShowingError(s: App.AppState): (n: nat)
    ensures n <= 2
  {
    (if LogoGenerator.ShowsError(s.error) then 1 else 0) +
    (if App.AnimatorMounted(s) && ShowsError(s.error) then 1 else 0)
  }

  /**
   * Error routing: with both panels mounted every present, non-empty error
   * is shown in exactly one of them; an absent or empty error is shown in
   * none; and an error is never shown twice.
   */
  lemma ErrorShownInExactlyOnePanel(s: App.AppState)
    ensures App.AnimatorMounted(s) && Truthy(s.error) ==> PanelsShowingError(s) == 1
    ensures !Truthy(s.error) ==> PanelsShowingError(s) == 0
    ensures PanelsShowingError(s) <= 1
  {
  }

  /** A message with the word "logo" in it is shown under the logo panel and not in the animation panel. */
  lemma ShownUnderLogo(before: string, after: string)
    ensures LogoGenerator.ShowsError(Some(before + LogoGenerator.LogoWord + after))
    ensures !ShowsError(Some(before + LogoGenerator.LogoWord + after))
  {
    IncludesInfix(before, LogoGenerator.LogoWord, after);
  }

  /** The empty-description error is shown under the logo panel. */
  lemma EmptyDescriptionRouting()
    ensures LogoGenerator.ShowsError(Some(App.EmptyDescriptionError))
  {
    assert App.EmptyDescriptionError == "Please enter a description for your " + LogoGenerator.LogoWord + ".";
    ShownUnderLogo("Please enter a description for your ", ".");
  }

  /** The failed-generation error is shown under the logo panel. */
  lemma LogoFailedRouting()
    ensures LogoGenerator.ShowsError(Some(App.LogoFailedError))
  {
    assert App.LogoFailedError == "Failed to generate " + LogoGenerator.LogoWord + ". Please try again.";
    ShownUnderLogo("Failed to generate ", ". Please try again.");
  }

  /** The missing-logo error of the animate handler is shown under the logo panel. */
  lemma NoLogoRouting()
    ensures LogoGenerator.ShowsError(Some(App.NoLogoError))
  {
    assert App.NoLogoError == "Please generate or upload a " + LogoGenerator.LogoWord + " first.";
    ShownUnderLogo("Please generate or upload a ", " first.");
  }

  /** The empty-prompt error is shown in the animation panel. */
  lemma {:induction false} EmptyPromptRouting()
    ensures ShowsError(Some(App.EmptyPromptError))
  {
    var w := LogoGenerator.LogoWord;
    var prompt := App.EmptyPromptError;
    assert w[2] == 'g';
    assert 'g' !in prompt;
    NotIncludesMissingChar(prompt, w, 2);
  }

  /**
   * The key-selection text that replaces a rejected submission's
   * entity-not-found error does not mention a logo, so unlike every other
   * animation failure it is shown in the animation panel.
   */
  lemma {:induction false} KeySelectionRouting()
    ensures ShowsError(Some(App.KeySelectionError))
    ensures !LogoGenerator.ShowsError(Some(App.KeySelectionError))
  {
    var w := LogoGenerator.LogoWord;
    var first, second, third, rest := "API Key validation failed. ", "Please select a valid key ", "and try a", "ain.";
    assert w[2] == 'g' && 'g' !in first && 'g' !in second && 'g' !in third && 'g' !in rest;
    assert "and try again." == third + ['g'] + rest;
    var before := first + second + third;
    assert App.KeySelectionError == before + ['g'] + rest;
    assert (before + ['g'] + rest)[|before| - 2] == third[|third| - 2] == ' ';
    NotIncludesSoleChar(before, 'g', rest, w, 2);
  }

  /**
   * Every animation failure that carries the fixed prefix mentions a logo,
   * so it is shown under the logo panel and not in the animation panel.
   */
  lemma {:induction false} PrefixedFailureRouting(message: string)
    ensures LogoGenerator.ShowsError(Some(App.AnimateFailedPrefix + message))
    ensures !ShowsError(Some(App.AnimateFailedPrefix + message))
  {
    assert App.AnimateFailedPrefix + message == "Failed to animate " + LogoGenerator.LogoWord + (": " + message);
    ShownUnderLogo("Failed to animate ", ": " + message);
  }

  /**
   * A failed upload is shown nowhere: its text does not mention a logo, and
   * the same failure removes the logo, which unmounts the animation panel.
   */
  lemma {:induction false} FailedUploadErrorIsHidden(s: App.AppState)
    ensures var t := App.UploadSettled(App.UploadStarted(s), None);
      t.error == Some(App.ReadFailedError) && PanelsShowingError(t) == 0
  {
    var w := LogoGenerator.LogoWord;
    assert w[2] == 'g' && 'g' !in App.ReadFailedError;
    NotIncludesMissingChar(App.ReadFailedError, w, 2);
  }

  /** The panel's own state: the key flag and whether the key is being checked. */
  class Panel {
    var apiKeySelected: bool
    var isCheckingApiKey: bool

    /** On mount no key is assumed and the check is pending. */
    constructor ()
      ensures !apiKeySelected && isCheckingApiKey
    {
      apiKeySelected := false;
      isCheckingApiKey := true;
    }

    /**
     * `checkKey`, run once on mount: asks the bridge whether a key is
     * selected, treats a rejection as no key, assumes a key outside AI
     * Studio, and ends the check on every path.
     */
    method CheckKey(host: Host)
      modifies this
      ensures apiKeySelected == KeyCheckResult(host)
      ensures !isCheckingApiKey
    {
      match host
      case Standalone =>
        apiKeySelected := true;
        isCheckingApiKey := false;
      case AIStudio(answer, _) =>
        isCheckingApiKey := true;
        if answer.Ok? {
          apiKeySelected := answer.value;
        } else {
          apiKeySelected := false;
        }
        isCheckingApiKey := false;
    }

    /**
     * `handleAnimateClick`: clears the application's error, then either
     * opens the key dialog or runs the application's animate handler.
     * `animated` says which.
     */
    method HandleAnimateClick(host: Host, app: App.Controller, apiKey: string, backend: GeminiService.VideoBackend)
      returns (animated: bool)
      modifies this, app
      ensures animated <==> Click(host, old(apiKeySelected)).0 == Animate
      ensures apiKeySelected == Click(host, old(apiKeySelected)).1
      ensures isCheckingApiKey == old(isCheckingApiKey)
      ensures animated ==>
        app.State() == App.AnimateLogoHandled(old(app.State()).(error := None), apiKey, backend)
      ensures !animated ==> app.State() == old(app.State()).(error := None)
    {
      app.ClearError();
      if host.AIStudio? && !apiKeySelected {
        if host.openSelectKeyResolves {
          apiKeySelected := true;
        }
        return false;
      }
      var _ := app.HandleAnimateLogo(apiKey, backend);
      animated := true;
    }
  }
}
