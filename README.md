# Logo animator core, modelled in Dafny

The application lets a user describe a logo or upload one, and then turn it into a
short video. Its core has three parts.

- **The generation client** (`services/geminiService.ts`).
  - It parses data URLs.
  - It asks an image model for one square JPEG logo.
  - It animates a logo: it submits a video job, polls the job every few seconds while
    reporting progress messages, classifies how the job ended and downloads the video.
- **The application controller** (`App.tsx`). It holds the view state (the texts, the
  aspect ratio, the logo and video URLs, two loading flags, the progress text and the
  one error) and has
  three asynchronous handlers:
  - generate a logo
  - upload a logo
  - animate the logo
- **The animation panel** (`components/VideoAnimator.tsx`) and the logo panel's error
  rule (`components/LogoGenerator.tsx`).
  - The animation panel checks for an API key on mount and gates the animate button on
    that key.
  - Both panels choose what to display: the button's label and state, the billing
    notice, the preview and the error.

## How the model is laid out

- `wrappers.dfy`: `Option` (JavaScript `null`/`undefined`) and `Result`, a settled
  promise. A rejection keeps its message, and `""` stands for a missing message.
- `text.dfy`: the string operations the code relies on.
  - `split` on one character, proved to invert `join`.
  - `includes`.
  - Truthiness of a nullable string.
- `gemini_service.dfy`, module `GeminiService`.
  - **Parsing and logo generation** are functions: `DataUrlToBase64`, `ImageRequestFor`
    and `GenerateLogo`.
  - **Animation** keeps the source's imperative form. `AnimateLogo`, `TrackJob`,
    `PollUntilDone` (the `while (!operation.done)` loop) and `DownloadVideo` are
    methods. Each is proved against a closed form: `AnimateLogoSpec`,
    `AfterSubmission`, `PollLoop` and `Finish`.
  - **The remote API is an oracle.** Its answer to the video submission is a function
    of the request. Its answers to the polls are a finite sequence. The download is a
    function of the URL.
  - **The progress callback** is the sequence of messages the call emits, in order.
- `gemini_service.dfy`, module `AnimationProperties`: the lemmas about the callback
  count, progress indexing and the failure paths, stated on those closed forms.
- `app.dfy`, module `App`: each handler is split where it waits. The two
  `async` handlers split at their `await`. `handleImageUpload` has no `await`; it
  splits at the FileReader callbacks.
  - A **Start** step holds the guard and the reset.
  - A **progress** step applies each callback message.
  - A **Settle** step applies the result or the error, then the `finally` cleanup.
  - Pure functions give each step's new `AppState`. Class `Controller` holds the nine
    state fields, and its methods are proved to produce exactly those states.
- `logo_generator.dfy`: the logo panel's error rule.
- `video_animator.dfy`: the pure view rules, plus class `Panel` with the panel's two
  flags (`apiKeySelected`, `isCheckingApiKey`). Its methods are `CheckKey` (the mount
  effect) and `HandleAnimateClick`, which drives an `App.Controller`.

The **key and the file read** are inputs. The API key comes from the environment and
is a string, where `""` means unset. The file read's result is `Some(dataUrl)`, or
`None` when the read fails.

**Two behaviours of the code worth knowing.**

- **Poll messages.** The code emits `messages[messageIndex % 5]` starting from
  `messageIndex = 1`, so the k-th poll iteration shows `messages[k mod 5]`
  (services/geminiService.ts:80-82).
- **A failed file read.** The browser fires `loadend` after `error`, with a `null`
  result. So a failed read sets the read error and also clears the logo, which
  unmounts the animation panel (App.tsx:47-52).

## Model

| member | source | states |
|---|---|---|
| Text.Split | services/geminiService.ts:17 | `split(',')` yields one more part than there are separators, no part holds the separator, and joining the parts gives the text back |
| Text.Includes | services/geminiService.ts:88 | `s.includes(sub)`: `sub` occurs in `s` at some position; the one rule behind the poll-error rewrite, the override of App.tsx:82 and both panels' error rules (its properties are `IncludesInfix`, `NotIncludesMissingChar` and `NotIncludesSoleChar`, used by the routing lemmas) |
| Text.Truthy | App.tsx:57 | JavaScript truthiness of a nullable string: present and not empty, as tested at App.tsx:57 and 107 and components/VideoAnimator.tsx:138 and 148 (used by `AnimateValidation`, `PreviewOf` and `ErrorShownInExactlyOnePanel`) |
| Text.SplitJoin | services/geminiService.ts:17 | splitting the join of separator-free parts recovers exactly those parts |
| Text.SplitTwo | services/geminiService.ts:21 | `a + sep + b` with separator-free `a` and `b` splits into exactly `[a, b]` |
| GeminiService.DataUrlToBase64 | services/geminiService.ts:16-24 | it fails with "Invalid data URL format" iff the text does not hold exactly one comma; on success the payload is exactly the comma-free text after that comma |
| GeminiService.DataUrlRoundTrip | services/geminiService.ts:16-24 | parsing `"data:" + m + ";base64," + d` gives back MIME type `m` and payload `d` when `m` has no ',', ';' or ':' and `d` has no ',' |
| GeminiService.DataUrlOf | App.tsx:34 | the data URL the application builds: `"data:"`, the MIME type, `";base64,"`, then the payload (its parse is `DataUrlRoundTrip`) |
| GeminiService.HeaderMimeType | services/geminiService.ts:21 | the header `"data:" + m + ";base64"` yields the MIME type `m` |
| GeminiService.ImageRequestFor | services/geminiService.ts:32-40 | the image prompt is the fixed template with the description inside it verbatim; the request asks for one 1:1 JPEG from the imagen model |
| GeminiService.GenerateLogo | services/geminiService.ts:27-48 | an unset key fails before any request; a rejected call passes its error on; a missing or empty image list fails with "No images were generated."; otherwise the result is the first image's bytes |
| GeminiService.VideoRequestFor | services/geminiService.ts:66-78 | the video job carries the prompt verbatim and the parsed logo's bytes and MIME type, and asks for one 720p video from the veo model in the chosen ratio, sent as its text |
| GeminiService.AspectRatio.Text | components/VideoAnimator.tsx:111 | the ratio's text is "16:9" exactly for landscape and "9:16" exactly for portrait |
| GeminiService.FirstConclusion | services/geminiService.ts:81-95 | the index of the first poll answer that is a rejection or a finished job (the length if there is none); every earlier answer is a running job |
| GeminiService.PollMessages | services/geminiService.ts:80-83 | the n poll iterations emit n messages, the j-th (from 0) being `messages[(j + 1) mod 5]`, always in bounds |
| GeminiService.ClassifyPollError | services/geminiService.ts:87-94 | a poll error containing "Requested entity was not found" becomes the key validation text; any other is passed on unchanged |
| GeminiService.KeyValidationMessageLacksSignature | services/geminiService.ts:88-91 | the rewritten key validation text no longer contains the entity-not-found signature |
| GeminiService.MessageText | services/geminiService.ts:98 | the text a template prints for the job error's message: the message, or "undefined" when it is missing (used by `DownloadVideo` and `FinishedJobFailures`) |
| GeminiService.PollLoop | services/geminiService.ts:80-95 | how the loop ends and how many iterations it runs: none iff the job was done at submission; every poll before the last is a running job; a finished end is a done operation from the last poll; a failed end is the classified rejection of the last poll; no settlement iff no supplied poll concludes, after one iteration more than there are polls; a job done at submission ends the loop with that very operation |
| GeminiService.DownloadUrl | services/geminiService.ts:110 | the fetched URL: the link with `&key=` and the key appended (used by `Finish`) |
| GeminiService.Finish | services/geminiService.ts:97-116 | the download message is emitted iff the job has no error and a link; the call animates iff, in addition, the fetch answers ok, and then its URL is the response's; it always settles |
| GeminiService.AnimateLogoSpec | services/geminiService.ts:50-117 | the closed form of the whole call that `AnimateLogo` is proved equal to (its properties are the `AnimationProperties` lemmas) |
| GeminiService.AfterSubmission | services/geminiService.ts:65-116 | the closed form after the submission returns a job, which `TrackJob` is proved equal to and `AcceptedJobContinues` joins to the whole call |
| GeminiService.AnimateLogo | services/geminiService.ts:50-117 | its outcome and the messages passed to the callback are those of the closed form: an unset key or a bad URL fails with no message; a rejected submission fails after the first message; otherwise the job is tracked |
| GeminiService.TrackJob | services/geminiService.ts:65-116 | from an accepted job: the first message, the poll loop's messages, then the download, matching the closed form |
| GeminiService.PollUntilDone | services/geminiService.ts:80-95 | the loop stops at the first finished job or rejected poll (rejections classified); it emits one round-robin message per iteration; if every answer is used while the job still runs, it reports no settlement |
| GeminiService.DownloadVideo | services/geminiService.ts:97-116 | an error field fails with "Video generation failed: " and its message; a missing link fails before the download message; otherwise it emits "Downloading your animation..." and then fetches `link&key=KEY`, failing on a rejection or a non-ok status |
| AnimationProperties.AcceptedJobContinues | services/geminiService.ts:56-78 | once the key is set, the URL parses and the submission returns a job, the rest of the call is the job's tracking |
| AnimationProperties.FirstConclusionAfterRunning | services/geminiService.ts:81-86 | after k polls that report a running job, the loop stops at a concluding answer k |
| AnimationProperties.ProgressIndexing | services/geminiService.ts:65-107 | the first message is `messages[0]`; message j of the sequence is `messages[j mod 5]`, except the last, which may be the download message |
| AnimationProperties.AfterSubmissionIndexing | services/geminiService.ts:65-107 | the same indexing for the messages of an accepted job, which always begin with `messages[0]` |
| AnimationProperties.CallbackCountAfterPolling | services/geminiService.ts:65-116 | a job reported running N times (the submission and N-1 polls), then done with a link whose download succeeds, yields that URL after exactly N+2 messages, the last being the download message |
| AnimationProperties.DoneImmediately | services/geminiService.ts:65-116 | a job done at submission yields its video after exactly two messages: `messages[0]`, then the download message |
| AnimationProperties.PollErrorStopsLoop | services/geminiService.ts:85-94 | a poll rejected after k running reports stops the loop with the signature rewritten (or the message unchanged), after exactly the first message and k+1 poll messages |
| AnimationProperties.FinishedJobFailures | services/geminiService.ts:97-113 | an error field and a missing link both fail before any download message; a rejected or non-ok download fails after it, with the fetch error or "Failed to download video file. Status: " and the status text |
| AnimationProperties.FlavourTextIsNotDownloading | services/geminiService.ts:7-13 | no round-robin message equals the download message |
| App.JpegDataUrlRoundTrip | App.tsx:34 | the logo URL built from comma-free bytes parses back to "image/jpeg" and those bytes |
| App.JpegDataUrl | App.tsx:34 | the logo URL built from generated bytes (its parse is `JpegDataUrlRoundTrip`) |
| App.AnimatorMounted | App.tsx:107 | the animation panel is rendered iff the logo URL is truthy (used by `UploadOutcome` and `PanelsShowingError`) |
| App.GenerateLogoStarted | App.tsx:22-30 | the guard and reset of `handleGenerateLogo` (its properties are `GenerateLogoRejectsEmptyDescription` and `GenerateLogoResetsBeforeCall`) |
| App.GenerateLogoSettled | App.tsx:32-40 | the result or error of logo generation, then the `finally` (its properties are `GenerateLogoOutcome`) |
| App.GenerateLogoHandled | App.tsx:22-41 | the whole handler over an image model (its properties are `GeneratedLogoRoundTrip` and `HandleGenerateLogo`) |
| App.GenerateLogoRejectsEmptyDescription | App.tsx:23-26 | an empty description sets only the description error and does not call the service |
| App.GenerateLogoResetsBeforeCall | App.tsx:27-30 | with a description, before the call the error, logo and video are cleared and the logo flag is raised, and nothing else changes |
| App.GenerateLogoOutcome | App.tsx:32-40 | on success the logo is the JPEG data URL of the bytes; on failure the logo stays cleared with the fixed failure text; the flag is down either way |
| App.GeneratedLogoRoundTrip | App.tsx:22-41 | end to end, a returned image yields a logo URL from which the service's parser recovers exactly the first image's bytes |
| App.UploadStarted | App.tsx:43-46 | the synchronous start of `handleImageUpload` (its properties are `UploadStartKeepsLogo`) |
| App.UploadSettled | App.tsx:47-52 | the reader's `onerror` and `onloadend` callbacks (its properties are `UploadOutcome`) |
| App.UploadStartKeepsLogo | App.tsx:43-46 | starting an upload clears the error and the video, and keeps the logo and both loading flags |
| App.UploadOutcome | App.tsx:47-53 | a read stores its data URL; a failed read sets "Failed to read the uploaded file." and clears the logo (unmounting the animator) |
| App.AnimateStarted | App.tsx:56-68 | the guard and reset of `handleAnimateLogo` (its properties are `AnimateValidation` and `AnimateProgress`) |
| App.ProgressReported | App.tsx:70-72 | one progress callback: the progress text becomes the message |
| App.ProgressReportedAll | App.tsx:70-72 | after the callback has received messages in order, the progress text is the last one and nothing else changed |
| App.AnimateFailureText | App.tsx:77-85 | "Failed to animate logo: " and the message (or the default text for a missing one), replaced by the key selection text when the message has the signature |
| App.AnimateSettled | App.tsx:74-89 | the result or the error text, then the `finally` (its properties are `AnimateCleanup`) |
| App.AnimateLogoHandled | App.tsx:56-90 | the whole handler over a video backend: every emitted message applied in order, and a settled call settled (its properties are `EntityNotFoundOverride` and `HandleAnimateLogo`) |
| App.AnimateValidation | App.tsx:57-64 | a missing logo is reported first, an empty prompt second; either one changes only the error and does not call the service; the service is called iff both are present |
| App.AnimateProgress | App.tsx:66-72 | while the job runs the video flag is up, the video and error are cleared and the progress text is the latest message |
| App.AnimateCleanup | App.tsx:74-89 | once settled the video flag is down and the progress text empty on every path; a success stores the URL and a failure shows its text |
| App.EntityNotFoundOverride | App.tsx:82-85 | the signature in a rejected submission gives the key selection text; the signature in a poll error gives "Failed to animate logo: " followed by the service's key validation text, because the service already rewrote it |
| App.Controller.constructor | App.tsx:11-20 | the initial state: empty description, the default animation prompt, no logo, video or error, 16:9, both flags down |
| App.Controller.SetLogoDescription | App.tsx:99 | the description changes and nothing else |
| App.Controller.SetAnimationPrompt | App.tsx:114 | the prompt changes and nothing else |
| App.Controller.SetAspectRatio | App.tsx:116 | the ratio changes and nothing else |
| App.Controller.ClearError | App.tsx:122 | the error becomes null and nothing else changes |
| App.Controller.StartGenerateLogo | App.tsx:23-30 | the guard and reset of logo generation, as the pure step gives them |
| App.Controller.SettleGenerateLogo | App.tsx:32-40 | the result or error of logo generation, then the flag cleanup |
| App.Controller.HandleGenerateLogo | App.tsx:22-41 | the service (`generateLogo`) is called iff the description is non-empty; the new state is the handler's closed form |
| App.Controller.StartImageUpload | App.tsx:44-45 | the error and video are cleared |
| App.Controller.SettleImageUpload | App.tsx:47-52 | the reader's callbacks applied to the state |
| App.Controller.HandleImageUpload | App.tsx:43-54 | the whole upload, as start then settle |
| App.Controller.StartAnimateLogo | App.tsx:57-68 | the guard and reset of animation, as the pure step gives them |
| App.Controller.ReportProgress | App.tsx:70-72 | the progress text becomes the message |
| App.Controller.ReportAll | App.tsx:70-72 | each message is applied in order |
| App.Controller.SettleAnimateLogo | App.tsx:74-89 | the result or error text, then the `finally` cleanup |
| App.Controller.HandleAnimateLogo | App.tsx:56-90 | the service is called iff a truthy logo and a non-empty prompt exist; the new state is the handler's closed form over the backend |
| VideoAnimator.KeyCheckResult | components/VideoAnimator.tsx:50-65 | the key counts as selected iff there is no bridge or the bridge answers true; a rejected answer counts as no key |
| VideoAnimator.Click | components/VideoAnimator.tsx:72-83 | the click gate and the new key flag (its properties are `ClickGating`, `SecondClickProceeds` and `RejectedDialogKeepsGate`) |
| VideoAnimator.ClickGating | components/VideoAnimator.tsx:72-83 | the animate handler runs iff there is no bridge or a key is already selected; the key flag is never cleared and is set exactly when the dialog resolves |
| VideoAnimator.SecondClickProceeds | components/VideoAnimator.tsx:73-76 | after the key dialog resolves, the next click animates |
| VideoAnimator.RejectedDialogKeepsGate | components/VideoAnimator.tsx:78-81 | after a rejected dialog the flag is unchanged, so the next click opens the dialog again, and no AI Studio host animates on the next click |
| VideoAnimator.AnimateDisabled | components/VideoAnimator.tsx:121 | the button is disabled while loading or checking the key (its properties are `DisabledIffBusyLabel`) |
| VideoAnimator.ButtonLabel | components/VideoAnimator.tsx:125 | the label follows the priority Verifying, then Animating, then Select API Key & Animate, then Animate Logo, each case written out in both directions, for the label and for the button's literal text |
| VideoAnimator.DisabledIffBusyLabel | components/VideoAnimator.tsx:121-125 | the button is disabled exactly when its label is "Verifying..." or "Animating..." |
| VideoAnimator.BillingNoticeShown | components/VideoAnimator.tsx:127 | the notice shows inside AI Studio, after the check, without a key (its properties are `BillingNoticeMeansKeyDialog`) |
| VideoAnimator.BillingNoticeMeansKeyDialog | components/VideoAnimator.tsx:127 | whenever the billing notice shows, the label is the select-key one (or busy) and a click opens the key dialog |
| VideoAnimator.PreviewOf | components/VideoAnimator.tsx:132-145 | the progress message iff loading; otherwise the video iff its URL is truthy; otherwise the placeholder |
| VideoAnimator.PreviewFor | App.tsx:118-120 | the panel's preview for the application state, fed by the props `isLoading`, `videoUrl` and `progressMessage` (its properties are `PreviewWhileAnimating` and `PreviewAfterAnimation`) |
| VideoAnimator.PreviewWhileAnimating | components/VideoAnimator.tsx:132-136 | during a run the preview shows the latest progress message |
| VideoAnimator.PreviewAfterAnimation | components/VideoAnimator.tsx:137-145 | after a run a returned URL is played and a failure shows the placeholder |
| LogoGenerator.ShowsError | components/LogoGenerator.tsx:99 | the logo panel shows a present, non-empty error iff it contains "logo" (its properties are `ErrorShownInExactlyOnePanel` and the routing lemmas) |
| VideoAnimator.ShowsError | components/VideoAnimator.tsx:148 | the animation panel shows a present, non-empty error iff it does not contain "logo" (its properties are `ErrorShownInExactlyOnePanel` and the routing lemmas) |
| VideoAnimator.PanelsShowingError | components/VideoAnimator.tsx:148 | the error is counted once for each mounted panel whose rule shows it |
| VideoAnimator.ErrorShownInExactlyOnePanel | components/LogoGenerator.tsx:99 | with both panels mounted a present error shows in exactly one of them; an absent one in none; never in two |
| VideoAnimator.ShownUnderLogo | components/LogoGenerator.tsx:99 | any text that has "logo" written in it is shown under the logo panel and not in the animator |
| VideoAnimator.EmptyDescriptionRouting | components/LogoGenerator.tsx:99 | the empty-description error shows under the logo panel |
| VideoAnimator.LogoFailedRouting | components/LogoGenerator.tsx:99 | the failed-generation error shows under the logo panel |
| VideoAnimator.NoLogoRouting | components/LogoGenerator.tsx:99 | the missing-logo error shows under the logo panel |
| VideoAnimator.EmptyPromptRouting | components/VideoAnimator.tsx:148 | the empty-prompt error shows in the animation panel |
| VideoAnimator.KeySelectionRouting | components/VideoAnimator.tsx:148 | the key selection text shows in the animation panel and not under the logo panel |
| VideoAnimator.PrefixedFailureRouting | components/LogoGenerator.tsx:99 | every "Failed to animate logo: ..." error shows under the logo panel, not in the animator |
| VideoAnimator.FailedUploadErrorIsHidden | components/VideoAnimator.tsx:148 | a failed upload's error is shown by no panel: it lacks "logo", and the same failure unmounts the animator |
| VideoAnimator.Panel.constructor | components/VideoAnimator.tsx:45-46 | on mount no key is assumed and the check is pending |
| VideoAnimator.Panel.CheckKey | components/VideoAnimator.tsx:48-68 | the key flag becomes the check's result and the check is over on every path |
| VideoAnimator.Panel.HandleAnimateClick | components/VideoAnimator.tsx:70-84 | the error is cleared first, then the application's animate handler runs iff the gate is open; the panel's key flag follows the gate; checking is unchanged |

## Left out

- **The remote API is left out.** The image model, the video submission, the polls
  and the download are oracles given as parameters. No network traffic and no SDK
  client is modelled. The download's blob and object URL are one opaque URL.
- **The 5-second wait between polls** has no observable effect in the model and is
  left out.
- **Unbounded polling.** The model supplies a finite sequence of poll answers. A job
  still running when they run out ends as `StillPolling`, which models a promise that
  has not settled yet. The application state is then what the last progress message
  left.
- **Environment inputs.** `process.env.API_KEY` is a parameter. `FileReader`'s asynchrony, `abort` and the
  file itself are left out: a read is given by its outcome.
- **Rendering.** React's state batching, effect scheduling, `useCallback` memoisation
  and component rendering are left out, apart from the display rules above.
  `console.error` and `alert` are left out too.
- **The animation panel's lifetime.** The panel is one `Panel` object. Remounts are
  not modelled. In the application, every logo generation (App.tsx:29) and every
  failed read make the logo falsy, which unmounts the panel (App.tsx:107). Remounting
  resets `apiKeySelected` to false and `isCheckingApiKey` to true and reruns the key
  check, so a key flag set by the dialog does not survive a regeneration.
- **Concurrency.** User actions are taken one at a time. The interleaving of two
  handlers is not modelled.
- **Other parts of the repository.** `components/Header.tsx` is not part of this
  model, and neither is the presentation markup of `components/LogoGenerator.tsx`.
- **Missing fields.** `response.blob()` rejecting is not modelled, and neither is an
  image entry without `imageBytes`.
- **A rejected key check.** A rejection of `hasSelectedApiKey` is an `Err`, and its
  message is dropped, as the code only logs it.
- **An absent MIME type.** `mimeType: undefined` (a header without ':') is `None`.
