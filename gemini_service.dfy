/**
 * The generation client: the data-URL parser, logo generation (one image
 * request) and logo animation (submit a video job, poll it until it is done,
 * download the result). The remote image and video API and the final
 * download are oracles supplied by the caller; the progress callback is the
 * sequence of messages that the call emits, in order.
 */
module GeminiService {
  import opened Wrappers
  import opened Text

  /** Flavour texts shown while the video job runs; poll k shows entry k mod 5. */
  const VideoGenerationMessages: seq<string> := [
    "Warming up the animation engine...",
    "Choreographing pixels...",
    "Rendering your masterpiece frame by frame...",
    "Adding a touch of digital magic...",
    "Almost there, polishing the final scene..."
  ]

  const DownloadingMessage := "Downloading your animation..."

  const ApiKeyNotSet := "API_KEY environment variable is not set."
  const InvalidDataUrl := "Invalid data URL format"
  const NoImagesGenerated := "No images were generated."
  const NoDownloadLink := "Video generation finished, but no download link was provided."
  // Written in pieces: the verifier reasons about the characters of each short piece.
  const KeyValidationFailed :=
    "API Key validation failed. " + "Please ensure your selected key " + "is correct and has billing enabled."
  const GenerationFailedPrefix := "Video generation failed: "
  const DownloadFailedPrefix := "Failed to download video file. Status: "

  /** The backend's signature for an invalid or unbilled key during polling. */
  const EntityNotFound := "Requested entity was not found"

  // ---------------------------------------------------------------------
  // Data URLs

  /**
   * What `dataUrlToBase64` extracts. `mimeType` is `None` when the header
   * has no ':' (the JavaScript expression then yields `undefined`).
   */
  datatype DataUrl = DataUrl(mimeType: Option<string>, data: string)

  /**
   * `dataUrlToBase64`: the text must split on ',' into exactly two parts
   * (so it holds exactly one comma); the payload is the second part, the MIME
   * type the part between the first ':' and the next ':' of the header's
   * text before its first ';'.
   */
  function DataUrlToBase64(dataUrl: string): (r: Result<DataUrl>)
    ensures r.Err? <==> multiset(dataUrl)[','] != 1
    ensures r.Err? ==> r.message == InvalidDataUrl
    ensures r.Ok? ==> ',' !in r.value.data
    ensures r.Ok? ==> exists header :: dataUrl == header + [','] + r.value.data
  {
    var parts := Split(dataUrl, ',');
    if |parts| != 2 then Err(InvalidDataUrl)
    else
      assert parts[1..] == [parts[1]];
      assert Join(parts[1..], ',') == parts[1];
      assert dataUrl == parts[0] + [','] + parts[1];
      var meta := Split(Split(parts[0], ';')[0], ':');
      Ok(DataUrl(if |meta| >= 2 then Some(meta[1]) else None, parts[1]))
  }

  /** The data URL that the application builds for a generated image or a file read. */
  function DataUrlOf(mimeType: string, data: string): string
  {
    "data:" + mimeType + ";base64," + data
  }

  /**
   * Round trip: a MIME type free of ',', ';' and ':' and a payload free of
   * ',' are recovered from the data URL built from them.
   */
  lemma {:induction false} DataUrlRoundTrip(mimeType: string, data: string)
    requires ',' !in mimeType && ';' !in mimeType && ':' !in mimeType
    requires ',' !in data
    ensures DataUrlToBase64(DataUrlOf(mimeType, data)) == Ok(DataUrl(Some(mimeType), data))
  {
    var header := "data:" + mimeType + ";base64";
    assert ',' !in header;
    assert DataUrlOf(mimeType, data) == header + [','] + data;
    SplitTwo(header, data, ',');
    HeaderMimeType(mimeType);
  }

  /** The header of a built data URL yields its MIME type. */
  lemma {:induction false} HeaderMimeType(mimeType: string)
    requires ';' !in mimeType && ':' !in mimeType
    ensures Split(Split("data:" + mimeType + ";base64", ';')[0], ':') == ["data", mimeType]
  {
    var scheme: string, encoding: string := "data", "base64";
    assert ';' !in scheme && ':' !in scheme && ';' !in encoding;
    var beforeSemicolon := scheme + [':'] + mimeType;
    assert "data:" + mimeType + ";base64" == beforeSemicolon + [';'] + encoding;
    SplitTwo(beforeSemicolon, encoding, ';');
    SplitTwo(scheme, mimeType, ':');
  }

  // ---------------------------------------------------------------------
  // Logo generation

  const ImagePromptPrefix := "A professional, modern, high-resolution logo for a company. The logo should be on a clean, solid white background. The description is: \""

  /** The request `generateLogo` sends to the image model. */
  datatype ImageRequest = ImageRequest(
    model: string, prompt: string, numberOfImages: nat, outputMimeType: string, aspectRatio: string)

  /**
   * The image request for a description: the description verbatim inside
   * the fixed template, and always one square JPEG image.
   */
  function ImageRequestFor(description: string): (req: ImageRequest)
    ensures req.model == "imagen-4.0-generate-001"
    ensures Includes(req.prompt, description)
    ensures |req.prompt| == |ImagePromptPrefix| + |description| + 1
    ensures req.prompt[..|ImagePromptPrefix|] == ImagePromptPrefix
    ensures req.prompt[|ImagePromptPrefix|..] == description + "\""
    ensures req.numberOfImages == 1 && req.outputMimeType == "image/jpeg" && req.aspectRatio == "1:1"
  {
    var prompt := ImagePromptPrefix + description + "\"";
    IncludesInfix(ImagePromptPrefix, description, "\"");
    ImageRequest("imagen-4.0-generate-001", prompt, 1, "image/jpeg", "1:1")
  }

  /**
   * How the image model answers: the call rejects, or it returns a response
   * whose `generatedImages` list may be missing; each image is given by its
   * base64 `imageBytes`.
   */
  datatype ImagesOutcome = ImagesThrew(message: string) | ImagesReturned(generatedImages: Option<seq<string>>)

  /**
   * `generateLogo`: fails when the key is unset (before any request), passes
   * on a rejection of the image call, fails when no image came back, and
   * otherwise returns the first image's bytes.
   */
  function GenerateLogo(apiKey: string, description: string, generateImages: ImageRequest -> ImagesOutcome): (r: Result<string>)
    ensures apiKey == "" ==> r == Err(ApiKeyNotSet)
    ensures apiKey != "" ==>
      match generateImages(ImageRequestFor(description))
      case ImagesThrew(m) => r == Err(m)
      case ImagesReturned(images) =>
        if images.Some? && |images.value| > 0 then r == Ok(images.value[0])
        else r == Err(NoImagesGenerated)
  {
    if apiKey == "" then Err(ApiKeyNotSet)
    else
      match generateImages(ImageRequestFor(description))
      case ImagesThrew(m) => Err(m)
      case ImagesReturned(images) =>
        if images.None? || |images.value| == 0 then Err(NoImagesGenerated)
        else Ok(images.value[0])
  }

  // ---------------------------------------------------------------------
  // Logo animation

  /** The two ratios the panel offers; the request carries the ratio's text. */
  datatype AspectRatio = Landscape | Portrait
  {
    function Text(): (t: string)
      ensures t == "16:9" <==> this == Landscape
      ensures t == "9:16" <==> this == Portrait
    {
      match this
      case Landscape => "16:9"
      case Portrait => "9:16"
    }
  }

  /** The job `animateLogo` submits to the video model. */
  datatype VideoRequest = VideoRequest(
    model: string, prompt: string, imageBytes: string, mimeType: Option<string>,
    numberOfVideos: nat, resolution: string, aspectRatio: string)

  /**
   * The video job for a prompt and a parsed logo: the prompt verbatim, the
   * logo's bytes and MIME type, and always one 720p video from the veo model
   * in the chosen aspect ratio.
   */
  function VideoRequestFor(prompt: string, image: DataUrl, aspectRatio: AspectRatio): (req: VideoRequest)
    ensures req.model == "veo-3.1-fast-generate-preview" && req.prompt == prompt
    ensures req.imageBytes == image.data && req.mimeType == image.mimeType
    ensures req.numberOfVideos == 1 && req.resolution == "720p" && req.aspectRatio == aspectRatio.Text()
  {
    VideoRequest("veo-3.1-fast-generate-preview", prompt, image.data, image.mimeType, 1, "720p", aspectRatio.Text())
  }

  /** The error object of a failed job; its `message` may be missing. */
  datatype OperationError = OperationError(message: Option<string>)

  /**
   * A long-running operation as the backend reports it. `downloadLink` is
   * `response?.generatedVideos?.[0]?.video?.uri`, with "" for a missing one
   * (both are falsy).
   */
  datatype Operation = Operation(done: bool, error: Option<OperationError>, downloadLink: string)

  /** The answer to one backend call: an operation, or a rejection. */
  datatype Call = Returned(operation: Operation) | Threw(message: string)

  /** The answer of the final `fetch`: a rejection, or a response (its object URL stands for the blob's). */
  datatype Download = FetchThrew(message: string) | Response(ok: bool, statusText: string, objectUrl: string)

  /**
   * The video backend as seen by one `animateLogo` call: the answer to the
   * submission, the answers to the successive polls, and the download.
   */
  datatype VideoBackend = VideoBackend(
    generateVideos: VideoRequest -> Call,
    getVideosOperation: seq<Call>,
    fetch: string -> Download)

  /**
   * How the call ends: a playable URL, a rejection, or (when every supplied
   * poll answer has been used and the job is still running) no settlement yet.
   */
  datatype Animation = Animated(url: string) | Failed(message: string) | StillPolling

  /** A poll answer that stops the loop: a rejection or a finished operation. */
  predicate Concludes(c: Call)
  {
    c.Threw? || c.operation.done
  }

  /** The index of the first poll answer that stops the loop, `|polls|` if none does. */
  function FirstConclusion(polls: seq<Call>): (k: nat)
    ensures k <= |polls|
    ensures forall j :: 0 <= j < k ==> !Concludes(polls[j])
    ensures k < |polls| ==> Concludes(polls[k])
    decreases |polls|
  {
    if |polls| == 0 || Concludes(polls[0]) then 0
    else 1 + FirstConclusion(polls[1..])
  }

  /** The messages emitted by the first `n` poll iterations. */
  function PollMessages(n: nat): (ms: seq<string>)
    ensures |ms| == n
    ensures forall j :: 0 <= j < n ==> ms[j] == VideoGenerationMessages[(j + 1) % 5]
  {
    if n == 0 then [] else PollMessages(n - 1) + [VideoGenerationMessages[n % |VideoGenerationMessages|]]
  }

  /**
   * The poll-error rewrite: the entity-not-found signature becomes the key
   * validation message, everything else passes unchanged.
   */
  function ClassifyPollError(message: string): (m: string)
    ensures Includes(message, EntityNotFound) ==> m == KeyValidationFailed
    ensures !Includes(message, EntityNotFound) ==> m == message
  {
    if Includes(message, EntityNotFound) then KeyValidationFailed else message
  }

  /** The rewritten text no longer carries the signature (it has no 'R'). */
  lemma KeyValidationMessageLacksSignature()
    ensures !Includes(KeyValidationFailed, EntityNotFound)
  {
    assert EntityNotFound[0] == 'R';
    assert 'R' !in "API Key validation failed. ";
    assert 'R' !in "Please ensure your selected key ";
    assert 'R' !in "is correct and has billing enabled.";
    NotIncludesMissingChar(KeyValidationFailed, EntityNotFound, 0);
  }

  /** `${operation.error.message}` prints a missing message as "undefined". */
  function MessageText(message: Option<string>): string
  {
    if message.Some? then message.value else "undefined"
  }

  /** How the poll loop ends: with a finished operation, a rejected poll, or unsettled. */
  datatype PollEnd = Finished(operation: Operation) | PollFailed(message: string) | Unsettled

  /**
   * The poll loop in closed form, from the submitted operation: how it ends
   * and how many iterations (each emitting one message) it runs. An
   * unfinished job runs one iteration per poll up to and including the first
   * poll that stops the loop; when no supplied poll does, the loop has
   * emitted its message for one more iteration and waits on a poll whose
   * answer lies beyond the supplied ones.
   */
  function PollLoop(submitted: Operation, polls: seq<Call>): (r: (PollEnd, nat))
    ensures r.1 == 0 <==> submitted.done
    ensures r.1 <= |polls| + 1
    ensures forall i :: 0 <= i < r.1 - 1 ==> polls[i].Returned? && !polls[i].operation.done
    ensures r.0.Unsettled? <==> !submitted.done && forall i :: 0 <= i < |polls| ==> !Concludes(polls[i])
    ensures r.0.Unsettled? ==> r.1 == |polls| + 1
    ensures !r.0.Unsettled? ==> r.1 <= |polls|
    ensures r.0.Finished? ==> r.0.operation.done
    ensures r.0.Finished? && r.1 > 0 ==> polls[r.1 - 1] == Returned(r.0.operation)
    ensures r.0.PollFailed? ==>
      (r.1 > 0 && polls[r.1 - 1].Threw? && r.0.message == ClassifyPollError(polls[r.1 - 1].message))
    ensures submitted.done ==> r.0 == Finished(submitted)
  {
    if submitted.done then (Finished(submitted), 0)
    else
      var k := FirstConclusion(polls);
      if k == |polls| then (Unsettled, k + 1)
      else match polls[k]
        case Threw(m) => (PollFailed(ClassifyPollError(m)), k + 1)
        case Returned(last) => (Finished(last), k + 1)
  }

  /** The URL fetched for a download link: the key is appended as a query parameter. */
  function DownloadUrl(downloadLink: string, apiKey: string): string
  {
    downloadLink + "&key=" + apiKey
  }

  /**
   * What happens once the loop has left with a finished operation: the
   * outcome, and the messages emitted after the loop.
   */
  function Finish(apiKey: string, operation: Operation, fetch: string -> Download): (r: (Animation, seq<string>))
    ensures r.1 == [DownloadingMessage] <==> operation.error.None? && operation.downloadLink != ""
    ensures r.1 == [] <==> !(operation.error.None? && operation.downloadLink != "")
    ensures r.0.Animated? <==>
      operation.error.None? && operation.downloadLink != "" &&
      fetch(DownloadUrl(operation.downloadLink, apiKey)).Response? &&
      fetch(DownloadUrl(operation.downloadLink, apiKey)).ok
    ensures r.0.Animated? ==> r.0.url == fetch(DownloadUrl(operation.downloadLink, apiKey)).objectUrl
    ensures !r.0.StillPolling?
  {
    if operation.error.Some? then
      (Failed(GenerationFailedPrefix + MessageText(operation.error.value.message)), [])
    else if operation.downloadLink == "" then
      (Failed(NoDownloadLink), [])
    else
      var outcome :=
        match fetch(DownloadUrl(operation.downloadLink, apiKey))
        case FetchThrew(m) => Failed(m)
        case Response(ok, statusText, url) =>
          if !ok then Failed(DownloadFailedPrefix + statusText) else Animated(url);
      (outcome, [DownloadingMessage])
  }

  /**
   * The whole of `animateLogo` in closed form: its outcome and the messages
   * it passes to the progress callback, in order.
   */
  function AnimateLogoSpec(apiKey: string, prompt: string, logoDataUrl: string, aspectRatio: AspectRatio, backend: VideoBackend): (Animation, seq<string>)
  {
    if apiKey == "" then (Failed(ApiKeyNotSet), [])
    else match DataUrlToBase64(logoDataUrl)
      case Err(m) => (Failed(m), [])
      case Ok(image) =>
        match backend.generateVideos(VideoRequestFor(prompt, image, aspectRatio))
        case Threw(m) => (Failed(m), [VideoGenerationMessages[0]])
        case Returned(submitted) => AfterSubmission(apiKey, submitted, backend)
  }

  /** What happens once the job is accepted: the poll loop, then the download. */
  function AfterSubmission(apiKey: string, submitted: Operation, backend: VideoBackend): (Animation, seq<string>)
  {
    var (end, n) := PollLoop(submitted, backend.getVideosOperation);
    var emitted := [VideoGenerationMessages[0]] + PollMessages(n);
    match end
    case Unsettled => (StillPolling, emitted)
    case PollFailed(m) => (Failed(m), emitted)
    case Finished(last) =>
      var (outcome, tail) := Finish(apiKey, last, backend.fetch);
      (outcome, emitted + tail)
  }

  /**
   * `animateLogo`: checks the key, parses the logo's data URL, emits the
   * first message, submits the job, polls it until it is done, then
   * classifies the finished operation and downloads the video.
   */
  method AnimateLogo(apiKey: string, prompt: string, logoDataUrl: string, aspectRatio: AspectRatio, backend: VideoBackend)
    returns (outcome: Animation, progress: seq<string>)
    ensures outcome == AnimateLogoSpec(apiKey, prompt, logoDataUrl, aspectRatio, backend).0
    ensures progress == AnimateLogoSpec(apiKey, prompt, logoDataUrl, aspectRatio, backend).1
  {
    if apiKey == "" {
      return Failed(ApiKeyNotSet), [];
    }
    var parsed := DataUrlToBase64(logoDataUrl);
    if parsed.Err? {
      return Failed(parsed.message), [];
    }
    var submitted := backend.generateVideos(VideoRequestFor(prompt, parsed.value, aspectRatio));
    if submitted.Threw? {
      return Failed(submitted.message), [VideoGenerationMessages[0]];
    }
    outcome, progress := TrackJob(apiKey, submitted.operation, backend);
  }

  /**
   * The rest of `animateLogo` once the job is accepted: the first message
   * (emitted just before the submission), the poll loop's messages, then
   * the classification of the finished operation and its download.
   */
  method TrackJob(apiKey: string, submitted: Operation, backend: VideoBackend)
    returns (outcome: Animation, progress: seq<string>)
    ensures outcome == AfterSubmission(apiKey, submitted, backend).0
    ensures progress == AfterSubmission(apiKey, submitted, backend).1
  {
    var end, emitted := PollUntilDone(submitted, backend.getVideosOperation);
    progress := [VideoGenerationMessages[0]] + emitted;
    match end
    case Unsettled =>
      outcome := StillPolling;
    case PollFailed(m) =>
      outcome := Failed(m);
    case Finished(last) =>
      var tail;
      outcome, tail := DownloadVideo(apiKey, last, backend.fetch);
      progress := progress + tail;
  }

  /**
   * The `while (!operation.done)` loop: each iteration emits the next
   * message round-robin (`messageIndex % 5`), waits, and polls; a rejected
   * poll is classified and ends the loop.
   */
  method PollUntilDone(submitted: Operation, polls: seq<Call>) returns (end: PollEnd, emitted: seq<string>)
    ensures end == PollLoop(submitted, polls).0
    ensures emitted == PollMessages(PollLoop(submitted, polls).1)
  {
    ghost var stop := FirstConclusion(polls);
    var operation := submitted;
    var messageIndex := 1;
    var polled := 0;
    emitted := [];
    while !operation.done
      invariant 0 <= polled <= |polls| && polled <= stop + 1
      invariant messageIndex == polled + 1
      invariant emitted == PollMessages(polled)
      invariant polled == 0 ==> operation == submitted
      invariant polled > 0 ==> !submitted.done
      invariant polled > 0 ==> polls[polled - 1] == Returned(operation)
      decreases |polls| - polled
    {
      assert polled > 0 ==> !Concludes(polls[polled - 1]);
      assert stop >= polled;
      assert PollMessages(messageIndex) == emitted + [VideoGenerationMessages[messageIndex % |VideoGenerationMessages|]];
      emitted := emitted + [VideoGenerationMessages[messageIndex % |VideoGenerationMessages|]];
      messageIndex := messageIndex + 1;
      // the five-second wait happens here
      if polled == |polls| {
        return Unsettled, emitted;
      }
      match polls[polled]
      case Threw(m) =>
        assert Concludes(polls[polled]) && stop == polled;
        return PollFailed(ClassifyPollError(m)), emitted;
      case Returned(next) =>
        operation := next;
      polled := polled + 1;
    }
    assert polled > 0 ==> Concludes(polls[polled - 1]) && stop == polled - 1;
    end := Finished(operation);
  }

  /**
   * After the loop: a job error, a missing download link and a failed
   * download each end the call with their own message; otherwise the
   * "downloading" message is emitted and the fetched video's URL returned.
   */
  method DownloadVideo(apiKey: string, operation: Operation, fetch: string -> Download) returns (outcome: Animation, emitted: seq<string>)
    ensures outcome == Finish(apiKey, operation, fetch).0
    ensures emitted == Finish(apiKey, operation, fetch).1
  {
    if operation.error.Some? {
      return Failed(GenerationFailedPrefix + MessageText(operation.error.value.message)), [];
    }
    var downloadLink := operation.downloadLink;
    if downloadLink == "" {
      return Failed(NoDownloadLink), [];
    }
    emitted := [DownloadingMessage];
    var response := fetch(DownloadUrl(downloadLink, apiKey));
    if response.FetchThrew? {
      return Failed(response.message), emitted;
    }
    if !response.ok {
      return Failed(DownloadFailedPrefix + response.statusText), emitted;
    }
    outcome := Animated(response.objectUrl);
  }
}

/** Properties of the animation call, stated on its closed form. */
module AnimationProperties {
  import opened Wrappers
  import opened Text
  import opened GeminiService

  /** The job submitted for the given logo, when the key is set and the URL parses. */
  predicate Submitted(apiKey: string, prompt: string, logoDataUrl: string, aspectRatio: AspectRatio, backend: VideoBackend, op: Operation)
  {
    apiKey != "" && DataUrlToBase64(logoDataUrl).Ok? &&
    backend.generateVideos(VideoRequestFor(prompt, DataUrlToBase64(logoDataUrl).value, aspectRatio)) == Returned(op)
  }

  /** A finished job with a link whose download succeeds with the given URL. */
  predicate Downloads(apiKey: string, op: Operation, fetch: string -> Download, url: string)
  {
    op.done && op.error.None? && op.downloadLink != "" &&
    var response := fetch(DownloadUrl(op.downloadLink, apiKey));
    response.Response? && response.ok && response.objectUrl == url
  }

  /** The first `n` polls all report a job still running. */
  predicate StillRunning(polls: seq<Call>, n: nat)
    requires n <= |polls|
  {
    forall j :: 0 <= j < n ==> polls[j].Returned? && !polls[j].operation.done
  }

  /** Once the job is accepted, the rest of the call is the poll loop and the download. */
  lemma AcceptedJobContinues(apiKey: string, prompt: string, logoDataUrl: string, aspectRatio: AspectRatio, backend: VideoBackend, op: Operation)
    requires Submitted(apiKey, prompt, logoDataUrl, aspectRatio, backend, op)
    ensures AnimateLogoSpec(apiKey, prompt, logoDataUrl, aspectRatio, backend) == AfterSubmission(apiKey, op, backend)
  {
  }

  /** The poll loop stops at the first poll that is not a running job. */
  lemma FirstConclusionAfterRunning(polls: seq<Call>, k: nat)
    requires k < |polls| && StillRunning(polls, k) && Concludes(polls[k])
    ensures FirstConclusion(polls) == k
  {
  }

  /**
   * Progress indexing: whatever the backend does, the first message is
   * `messages[0]`, the message at position j of a poll iteration is
   * `messages[j mod 5]`, and the only other message is the final
   * "downloading" one.
   */
  lemma {:induction false} ProgressIndexing(apiKey: string, prompt: string, logoDataUrl: string, aspectRatio: AspectRatio, backend: VideoBackend)
    ensures var progress := AnimateLogoSpec(apiKey, prompt, logoDataUrl, aspectRatio, backend).1;
      (|progress| > 0 ==> progress[0] == VideoGenerationMessages[0]) &&
      forall j :: 1 <= j < |progress| ==>
        progress[j] == VideoGenerationMessages[j % 5] || (j == |progress| - 1 && progress[j] == DownloadingMessage)
  {
    if apiKey != "" && DataUrlToBase64(logoDataUrl).Ok? {
      var request := VideoRequestFor(prompt, DataUrlToBase64(logoDataUrl).value, aspectRatio);
      if backend.generateVideos(request).Returned? {
        AfterSubmissionIndexing(apiKey, backend.generateVideos(request).operation, backend);
      }
    }
  }

  /** The indexing of the messages emitted after the job is accepted. */
  lemma {:induction false} AfterSubmissionIndexing(apiKey: string, submitted: Operation, backend: VideoBackend)
    ensures var progress := AfterSubmission(apiKey, submitted, backend).1;
      |progress| > 0 && progress[0] == VideoGenerationMessages[0] &&
      forall j :: 1 <= j < |progress| ==>
        progress[j] == VideoGenerationMessages[j % 5] || (j == |progress| - 1 && progress[j] == DownloadingMessage)
  {
    var end := PollLoop(submitted, backend.getVideosOperation).0;
    var n := PollLoop(submitted, backend.getVideosOperation).1;
    var head := [VideoGenerationMessages[0]] + PollMessages(n);
    assert forall j :: 1 <= j < |head| ==> head[j] == PollMessages(n)[j - 1];
    var progress := AfterSubmission(apiKey, submitted, backend).1;
    if end.Finished? {
      var tail := Finish(apiKey, end.operation, backend.fetch).1;
      assert progress == head + tail;
      assert tail == [] || tail == [DownloadingMessage];
    } else {
      assert progress == head;
    }
  }

  /**
   * Callback count: a job reported not done N times (its submission and the
   * first N-1 polls), then done with a link whose download succeeds, fires
   * the callback exactly N+2 times and ends with the "downloading" message.
   */
  lemma CallbackCountAfterPolling(apiKey: string, submitted: Operation, backend: VideoBackend, n: nat, url: string)
    requires !submitted.done
    requires 1 <= n <= |backend.getVideosOperation| && StillRunning(backend.getVideosOperation, n - 1)
    requires backend.getVideosOperation[n - 1].Returned?
    requires Downloads(apiKey, backend.getVideosOperation[n - 1].operation, backend.fetch, url)
    ensures AfterSubmission(apiKey, submitted, backend).0 == Animated(url)
    ensures |AfterSubmission(apiKey, submitted, backend).1| == n + 2
    ensures AfterSubmission(apiKey, submitted, backend).1[n + 1] == DownloadingMessage
  {
  }

  /** A job done at submission fires the callback exactly twice: the first message and "downloading". */
  lemma {:induction false} DoneImmediately(apiKey: string, submitted: Operation, backend: VideoBackend, url: string)
    requires Downloads(apiKey, submitted, backend.fetch, url)
    ensures AfterSubmission(apiKey, submitted, backend) ==
      (Animated(url), [VideoGenerationMessages[0], DownloadingMessage])
  {
    assert PollLoop(submitted, backend.getVideosOperation) == (Finished(submitted), 0);
    assert PollMessages(0) == [];
    assert Finish(apiKey, submitted, backend.fetch) == (Animated(url), [DownloadingMessage]);
    assert [VideoGenerationMessages[0]] + [] + [DownloadingMessage] == [VideoGenerationMessages[0], DownloadingMessage];
  }

  /**
   * A rejected poll stops the loop: the entity-not-found signature becomes
   * the key validation error, any other message is passed on unchanged, and
   * nothing after that poll's message is emitted.
   */
  lemma PollErrorStopsLoop(apiKey: string, submitted: Operation, backend: VideoBackend, k: nat, message: string)
    requires !submitted.done
    requires k < |backend.getVideosOperation| && StillRunning(backend.getVideosOperation, k)
    requires backend.getVideosOperation[k] == Threw(message)
    ensures Includes(message, EntityNotFound) ==>
      AfterSubmission(apiKey, submitted, backend).0 == Failed(KeyValidationFailed)
    ensures !Includes(message, EntityNotFound) ==>
      AfterSubmission(apiKey, submitted, backend).0 == Failed(message)
    ensures AfterSubmission(apiKey, submitted, backend).1 ==
      [VideoGenerationMessages[0]] + PollMessages(k + 1)
  {
  }

  /**
   * The terminal failures of a finished job: an error field fails with its
   * message and a missing link fails with the no-link error, both before any
   * "downloading" message; a download that rejects or answers not-ok fails
   * after it.
   */
  lemma {:induction false} FinishedJobFailures(apiKey: string, submitted: Operation, backend: VideoBackend)
    requires PollLoop(submitted, backend.getVideosOperation).0.Finished?
    ensures var last := PollLoop(submitted, backend.getVideosOperation).0.operation;
      var outcome := AfterSubmission(apiKey, submitted, backend).0;
      var progress := AfterSubmission(apiKey, submitted, backend).1;
      var response := backend.fetch(DownloadUrl(last.downloadLink, apiKey));
      (last.error.Some? ==>
        outcome == Failed(GenerationFailedPrefix + MessageText(last.error.value.message)) &&
        DownloadingMessage !in progress) &&
      (last.error.None? && last.downloadLink == "" ==>
        outcome == Failed(NoDownloadLink) && DownloadingMessage !in progress) &&
      (last.error.None? && last.downloadLink != "" ==>
        progress[|progress| - 1] == DownloadingMessage &&
        (response.FetchThrew? ==> outcome == Failed(response.message)) &&
        (response.Response? && !response.ok ==> outcome == Failed(DownloadFailedPrefix + response.statusText)))
  {
    var n := PollLoop(submitted, backend.getVideosOperation).1;
    FlavourTextIsNotDownloading(n);
  }

  /** No round-robin message is the "downloading" message. */
  lemma {:induction false} FlavourTextIsNotDownloading(n: nat)
    ensures DownloadingMessage !in [VideoGenerationMessages[0]] + PollMessages(n)
  {
    forall i | 0 <= i < 5
      ensures VideoGenerationMessages[i] != DownloadingMessage
    {
      assert |DownloadingMessage| == 29;
      assert |VideoGenerationMessages[i]| != 29;
    }
  }
}
