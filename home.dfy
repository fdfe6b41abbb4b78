/** The home screen's recording and transcription session: ask for the
    microphone, record, check the file, upload it to AssemblyAI, submit a
    transcription job and poll it until it settles or the attempts run out.
    Device and network calls are oracle parameters of type `Reply`; what the
    screen does to the outside world (alerts, HTTP requests, waits) is
    appended to the `effects` log of the screen. */
module Home {
  import opened Js

  const MAX_ATTEMPTS: nat := 60
  const POLL_DELAY_MS: nat := 5000

  const BASE_URL := "https://api.assemblyai.com"
  const UPLOAD_ENDPOINT := BASE_URL + "/v2/upload"
  const TRANSCRIPT_ENDPOINT := BASE_URL + "/v2/transcript"
  const FILE_SCHEME := "file://"

  const NO_TRANSCRIPTION := "No transcription available"

  const LABEL_RECORDING := "Recording... Tap to stop"
  const LABEL_PROCESSING := "Processing with AssemblyAI..."
  const LABEL_IDLE := "Press the microphone to start recording!"

  /** `Platform.OS`, as far as the screen distinguishes it: the upload form
      tests only for "android", so `IOS` stands for every other platform. */
  datatype Platform = Android | IOS

  /** What `FileSystem.getInfoAsync` reports about the recorded file. */
  datatype FileInfo = Missing | Present(size: nat)

  /** A created recording; `getURI()` may give null. */
  datatype Recording = Recording(uri: Option<string>)

  /** The fields of a transcript-status reply that the screen reads. */
  datatype PollBody = PollBody(status: string, text: Option<string>, error: string)

  /** The alerts the screen can raise. */
  datatype Alert =
    | PermissionDenied | PermissionFailed
    | StartFailed | RecordingEmpty | StopFailed
    | AudioFileEmpty | UploadFailed | TranscriptionError(detail: string) | TimedOut | TranscribeFailed
  {
    /** The title passed to `Alert.alert`. */
    function Title(): string {
      if PermissionDenied? || PermissionFailed? then "Permission" else "Error"
    }

    /** The message passed to `Alert.alert`. */
    function Message(): string {
      match this
      case PermissionDenied => "Please allow microphone access to use this feature."
      case PermissionFailed => "An error occurred while requesting microphone access."
      case StartFailed => "An error occurred while starting the recording."
      case RecordingEmpty => "Failed to record audio. Please try again."
      case StopFailed => "An error occurred while stopping the recording."
      case AudioFileEmpty => "Audio file does not exist or is empty."
      case UploadFailed => "Failed to upload audio file."
      case TranscriptionError(detail) => detail
      case TimedOut => "Transcription timed out. Please try again."
      case TranscribeFailed => "An error occurred while transcribing the audio."
    }
  }

  /** Something the screen does to the outside world. */
  datatype Effect =
    | Alerted(alert: Alert)                    // Alert.alert(alert.Title(), alert.Message())
    | Uploaded(fileUri: Option<string>)        // POST UPLOAD_ENDPOINT, multipart field "file"
    | Submitted(audioUrl: string)              // POST TRANSCRIPT_ENDPOINT with this audio_url
    | Polled(endpoint: string)                 // GET endpoint
    | Waited(ms: nat)                          // setTimeout before the next poll

  /** The transcription service's answers, in the order the session asks for them. */
  datatype Service = Service(
    fileInfo: Reply<FileInfo>,           // getInfoAsync just before the upload
    uploadUrl: Reply<Option<string>>,    // `upload_url` of the upload reply
    transcriptId: Reply<Option<string>>, // `id` of the transcription-submit reply
    polls: nat -> Reply<PollBody>)       // the reply to status request number n, from 0

  /** A finished call: the transcript it returned (None for null) and its effects. */
  datatype Run = Run(transcript: Option<string>, effects: seq<Effect>)

  /** What `stopRecording` did: the new `text`, if it got that far, and its effects. */
  datatype StopRun = StopRun(shown: Option<string>, effects: seq<Effect>)

  /** The controls shown in place of the microphone button. */
  datatype Control = Spinner | MicButton | StopButton

  // ---------------------------------------------------------------------------
  // Counting effects

  function Tally(s: seq<Effect>, p: Effect -> bool): nat {
    if s == [] then 0 else (if p(s[0]) then 1 else 0) + Tally(s[1..], p)
  }

  predicate IsPoll(e: Effect) { e.Polled? }
  predicate IsWait(e: Effect) { e.Waited? }

  function Polls(s: seq<Effect>): nat { Tally(s, IsPoll) }
  function Waits(s: seq<Effect>): nat { Tally(s, IsWait) }

  lemma {:induction false} TallyAppend(a: seq<Effect>, b: seq<Effect>, p: Effect -> bool)
    ensures Tally(a + b, p) == Tally(a, p) + Tally(b, p)
    decreases |a|
  {
    if a == [] {
      assert a + b == b;
    } else {
      assert (a + b)[0] == a[0];
      assert (a + b)[1..] == a[1..] + b;
      TallyAppend(a[1..], b, p);
    }
  }

  lemma {:induction false} TallyAtMostLength(s: seq<Effect>, p: Effect -> bool)
    ensures Tally(s, p) <= |s|
    decreases |s|
  {
    if s != [] {
      TallyAtMostLength(s[1..], p);
    }
  }

  lemma AppendAssoc(a: seq<Effect>, b: seq<Effect>, c: seq<Effect>)
    ensures (a + b) + c == a + (b + c)
  {
  }

  lemma TallyOne(e: Effect, p: Effect -> bool)
    ensures Tally([e], p) == if p(e) then 1 else 0
  {
    assert [e][1..] == [];
  }

  // ---------------------------------------------------------------------------
  // Guards and small computations

  /** The guard `!fileInfo.exists || fileInfo.size === 0`, negated. */
  predicate HasAudio(info: FileInfo) {
    info.Present? && info.size != 0
  }

  /** The URI put in the upload form: unchanged on Android; on iOS the first
      "file://" is removed, and a null URI makes `uri.replace` throw. */
  function FormUri(os: Platform, uri: Option<string>): (r: Reply<Option<string>>)
    ensures os == Android ==> r == Returned(uri)
    ensures r.Threw? <==> os == IOS && uri.None?
    ensures r.Returned? && r.value.Some? ==> |r.value.value| <= |uri.value|
  {
    match os
    case Android => Returned(uri)
    case IOS => if uri.Some? then Returned(Some(ReplaceFirst(uri.value, FILE_SCHEME, ""))) else Threw
  }

  lemma IosStripsFileScheme(path: string)
    ensures FormUri(IOS, Some(FILE_SCHEME + path)) == Returned(Some(path))
  {
    var uri := FILE_SCHEME + path;
    assert uri[..|FILE_SCHEME|] == FILE_SCHEME;
    assert OccursAt(uri, FILE_SCHEME, 0);
    ReplaceFirstAt(uri, FILE_SCHEME, "", 0);
    assert uri[..0] + "" + uri[|FILE_SCHEME|..] == path;
  }

  lemma IosKeepsUriWithoutScheme(uri: string)
    requires forall j :: !OccursAt(uri, FILE_SCHEME, j)
    ensures FormUri(IOS, Some(uri)) == Returned(Some(uri))
  {
    ReplaceFirstAbsent(uri, FILE_SCHEME, "");
  }

  /** `${baseUrl}/v2/transcript/${transcriptId}`; a missing id prints as "undefined". */
  function PollingEndpoint(id: Option<string>): (endpoint: string)
    ensures |endpoint| > |TRANSCRIPT_ENDPOINT| && endpoint[..|TRANSCRIPT_ENDPOINT| + 1] == TRANSCRIPT_ENDPOINT + "/"
    ensures id.Some? ==> endpoint[|TRANSCRIPT_ENDPOINT| + 1..] == id.value
    ensures id.None? ==> endpoint[|TRANSCRIPT_ENDPOINT| + 1..] == "undefined"
  {
    TRANSCRIPT_ENDPOINT + "/" + (match id case Some(s) => s case None => "undefined")
  }

  /** `setText(transcript || "No transcription available")`. */
  function DisplayText(transcript: Option<string>): (shown: string)
    ensures shown != ""
    ensures Truthy(transcript) ==> shown == transcript.value
    ensures !Truthy(transcript) ==> shown == NO_TRANSCRIPTION
  {
    if Truthy(transcript) then transcript.value else NO_TRANSCRIPTION
  }

  /** The control under the transcript: spinner, microphone or stop animation. */
  function ControlFor(loading: bool, isRecording: bool): (c: Control)
    ensures c == Spinner <==> loading
    ensures c == StopButton <==> !loading && isRecording
  {
    if loading then Spinner else if !isRecording then MicButton else StopButton
  }

  /** The status line at the bottom of the screen. */
  function StatusLabel(loading: bool, isRecording: bool): (line: string)
    ensures line == LABEL_RECORDING <==> isRecording
    ensures line == LABEL_PROCESSING <==> !isRecording && loading
  {
    if isRecording then LABEL_RECORDING else if loading then LABEL_PROCESSING else LABEL_IDLE
  }

  /** The status line never contradicts the control: the stop control comes with
      the recording label, the processing label with the spinner, and the idle
      label exactly with the microphone. */
  lemma LabelAgreesWithControl(loading: bool, isRecording: bool)
    ensures ControlFor(loading, isRecording) == StopButton ==> StatusLabel(loading, isRecording) == LABEL_RECORDING
    ensures StatusLabel(loading, isRecording) == LABEL_PROCESSING ==> ControlFor(loading, isRecording) == Spinner
    ensures ControlFor(loading, isRecording) == MicButton <==> StatusLabel(loading, isRecording) == LABEL_IDLE
    ensures !loading ==> (ControlFor(loading, isRecording) == StopButton <==> StatusLabel(loading, isRecording) == LABEL_RECORDING)
  {
  }

  // ---------------------------------------------------------------------------
  // The polling loop

  /** A reply after which the loop waits and asks again. */
  predicate Pending(r: Reply<PollBody>) {
    r.Returned? && r.value.status != "completed" && r.value.status != "error"
  }

  predicate Completed(r: Reply<PollBody>) {
    r.Returned? && r.value.status == "completed"
  }

  /** The first attempt, from `from` on, whose reply is not pending; MAX_ATTEMPTS if none is. */
  function FirstSettled(polls: nat -> Reply<PollBody>, from: nat): (k: nat)
    requires from <= MAX_ATTEMPTS
    ensures from <= k <= MAX_ATTEMPTS
    ensures forall j :: from <= j < k ==> Pending(polls(j))
    ensures k < MAX_ATTEMPTS ==> !Pending(polls(k))
    decreases MAX_ATTEMPTS - from
  {
    if from == MAX_ATTEMPTS || !Pending(polls(from)) then from else FirstSettled(polls, from + 1)
  }

  /** `FirstSettled` is the least non-pending attempt: any `k` with only pending
      replies before it and a settling reply (or the bound) at it is the one. */
  lemma {:induction false} FirstSettledIs(polls: nat -> Reply<PollBody>, from: nat, k: nat)
    requires from <= k <= MAX_ATTEMPTS
    requires forall j :: from <= j < k ==> Pending(polls(j))
    requires k < MAX_ATTEMPTS ==> !Pending(polls(k))
    ensures FirstSettled(polls, from) == k
    decreases k - from
  {
    if from < k {
      FirstSettledIs(polls, from + 1, k);
    }
  }

  /** The loop from attempt `attempts` on, as a recursive function. */
  function PollFrom(endpoint: string, polls: nat -> Reply<PollBody>, attempts: nat): (r: Run)
    requires attempts <= MAX_ATTEMPTS
    ensures 1 <= |r.effects| <= 2 * (MAX_ATTEMPTS - attempts) + 1
    decreases MAX_ATTEMPTS - attempts
  {
    if attempts == MAX_ATTEMPTS then Run(None, [Alerted(TimedOut)])
    else
      match polls(attempts)
      case Threw => Run(None, [Polled(endpoint), Alerted(TranscribeFailed)])
      case Returned(body) =>
        if body.status == "completed" then Run(body.text, [Polled(endpoint)])
        else if body.status == "error" then Run(None, [Polled(endpoint), Alerted(TranscriptionError(body.error))])
        else
          var rest := PollFrom(endpoint, polls, attempts + 1);
          Run(rest.transcript, [Polled(endpoint), Waited(POLL_DELAY_MS)] + rest.effects)
  }

  /** `n` pending rounds: a status request followed by a wait. */
  function Rounds(endpoint: string, n: nat): seq<Effect> {
    if n == 0 then [] else [Polled(endpoint), Waited(POLL_DELAY_MS)] + Rounds(endpoint, n - 1)
  }

  /** The effects of the attempt `k` that ends the loop (k == MAX_ATTEMPTS: the timeout). */
  function Closing(endpoint: string, polls: nat -> Reply<PollBody>, k: nat): seq<Effect> {
    if k >= MAX_ATTEMPTS then [Alerted(TimedOut)]
    else
      match polls(k)
      case Threw => [Polled(endpoint), Alerted(TranscribeFailed)]
      case Returned(body) =>
        if body.status == "completed" then [Polled(endpoint)]
        else [Polled(endpoint), Alerted(TranscriptionError(body.error))]
  }

  /** What the loop returns when attempt `k` ends it. */
  function Outcome(polls: nat -> Reply<PollBody>, k: nat): Option<string> {
    if k < MAX_ATTEMPTS && Completed(polls(k)) then polls(k).value.text else None
  }

  lemma ClosingCount(endpoint: string, polls: nat -> Reply<PollBody>, k: nat)
    ensures Polls(Closing(endpoint, polls, k)) == if k < MAX_ATTEMPTS then 1 else 0
    ensures Waits(Closing(endpoint, polls, k)) == 0
  {
    var c := Closing(endpoint, polls, k);
    TallyOne(c[0], IsPoll);
    TallyOne(c[0], IsWait);
    if |c| == 2 {
      assert c == [c[0]] + [c[1]];
      TallyOne(c[1], IsPoll);
      TallyOne(c[1], IsWait);
      TallyAppend([c[0]], [c[1]], IsPoll);
      TallyAppend([c[0]], [c[1]], IsWait);
    } else {
      assert c == [c[0]];
    }
  }

  lemma {:induction false} RoundsCount(endpoint: string, n: nat)
    ensures Polls(Rounds(endpoint, n)) == n && Waits(Rounds(endpoint, n)) == n
    ensures forall e :: e in Rounds(endpoint, n) ==> e == Polled(endpoint) || e == Waited(POLL_DELAY_MS)
  {
    if n > 0 {
      var pair := [Polled(endpoint), Waited(POLL_DELAY_MS)];
      RoundsCount(endpoint, n - 1);
      TallyAppend(pair, Rounds(endpoint, n - 1), IsPoll);
      TallyAppend(pair, Rounds(endpoint, n - 1), IsWait);
    }
  }

  /** The loop issues one request per pending reply, then the settling one, and
      returns what the settling reply says. */
  lemma {:induction false} PollFromClosedForm(endpoint: string, polls: nat -> Reply<PollBody>, from: nat)
    requires from <= MAX_ATTEMPTS
    ensures var k := FirstSettled(polls, from);
      PollFrom(endpoint, polls, from)
        == Run(Outcome(polls, k), Rounds(endpoint, k - from) + Closing(endpoint, polls, k))
    decreases MAX_ATTEMPTS - from
  {
    if from < MAX_ATTEMPTS && Pending(polls(from)) {
      var k := FirstSettled(polls, from);
      var pair := [Polled(endpoint), Waited(POLL_DELAY_MS)];
      var rest := PollFrom(endpoint, polls, from + 1);
      assert PollFrom(endpoint, polls, from) == Run(rest.transcript, pair + rest.effects);
      assert rest == Run(Outcome(polls, k), Rounds(endpoint, k - (from + 1)) + Closing(endpoint, polls, k)) by {
        PollFromClosedForm(endpoint, polls, from + 1);
      }
      assert Rounds(endpoint, k - from) == pair + Rounds(endpoint, k - (from + 1));
      AppendAssoc(pair, Rounds(endpoint, k - (from + 1)), Closing(endpoint, polls, k));
    }
  }

  /** The loop's effects when attempt `k` ends it: one request per attempt up to
      and including `k`, one wait per pending attempt before `k`. */
  lemma LoopEffectsCount(endpoint: string, polls: nat -> Reply<PollBody>, k: nat)
    ensures Polls(Rounds(endpoint, k) + Closing(endpoint, polls, k)) == k + (if k < MAX_ATTEMPTS then 1 else 0)
    ensures Waits(Rounds(endpoint, k) + Closing(endpoint, polls, k)) == k
  {
    RoundsCount(endpoint, k);
    ClosingCount(endpoint, polls, k);
    TallyAppend(Rounds(endpoint, k), Closing(endpoint, polls, k), IsPoll);
    TallyAppend(Rounds(endpoint, k), Closing(endpoint, polls, k), IsWait);
  }

  /** The loop always ends, having issued between 1 and MAX_ATTEMPTS status requests. */
  lemma AtMostSixtyPolls(endpoint: string, polls: nat -> Reply<PollBody>)
    ensures 1 <= Polls(PollFrom(endpoint, polls, 0).effects) <= MAX_ATTEMPTS
    ensures Waits(PollFrom(endpoint, polls, 0).effects) <= MAX_ATTEMPTS
  {
    var k := FirstSettled(polls, 0);
    assert PollFrom(endpoint, polls, 0).effects == Rounds(endpoint, k) + Closing(endpoint, polls, k) by {
      PollFromClosedForm(endpoint, polls, 0);
    }
    LoopEffectsCount(endpoint, polls, k);
  }

  /** The first "completed" reply returns its text; no request follows it. */
  lemma CompletedStopsPolling(endpoint: string, polls: nat -> Reply<PollBody>, k: nat)
    requires k < MAX_ATTEMPTS
    requires forall j :: 0 <= j < k ==> Pending(polls(j))
    requires Completed(polls(k))
    ensures PollFrom(endpoint, polls, 0) == Run(polls(k).value.text, Rounds(endpoint, k) + [Polled(endpoint)])
    ensures Polls(PollFrom(endpoint, polls, 0).effects) == k + 1
  {
    FirstSettledIs(polls, 0, k);
    PollFromClosedForm(endpoint, polls, 0);
    LoopEffectsCount(endpoint, polls, k);
  }

  /** The first "error" reply returns null after alerting its error; no request follows it. */
  lemma ErrorStopsPolling(endpoint: string, polls: nat -> Reply<PollBody>, k: nat)
    requires k < MAX_ATTEMPTS
    requires forall j :: 0 <= j < k ==> Pending(polls(j))
    requires polls(k).Returned? && polls(k).value.status == "error"
    ensures PollFrom(endpoint, polls, 0)
      == Run(None, Rounds(endpoint, k) + [Polled(endpoint), Alerted(TranscriptionError(polls(k).value.error))])
    ensures Polls(PollFrom(endpoint, polls, 0).effects) == k + 1
  {
    FirstSettledIs(polls, 0, k);
    PollFromClosedForm(endpoint, polls, 0);
    LoopEffectsCount(endpoint, polls, k);
  }

  /** MAX_ATTEMPTS pending replies end in the timeout alert and null, after one
      wait per request. */
  lemma TimeoutAfterSixtyPending(endpoint: string, polls: nat -> Reply<PollBody>)
    requires forall j :: 0 <= j < MAX_ATTEMPTS ==> Pending(polls(j))
    ensures PollFrom(endpoint, polls, 0)
      == Run(None, Rounds(endpoint, MAX_ATTEMPTS) + [Alerted(TimedOut)])
    ensures Polls(PollFrom(endpoint, polls, 0).effects) == MAX_ATTEMPTS
    ensures Waits(PollFrom(endpoint, polls, 0).effects) == MAX_ATTEMPTS
  {
    FirstSettledIs(polls, 0, MAX_ATTEMPTS);
    PollFromClosedForm(endpoint, polls, 0);
    LoopEffectsCount(endpoint, polls, MAX_ATTEMPTS);
  }

  /** Conversely, a transcript is returned only as the text of a "completed"
      reply that every earlier reply left pending. */
  lemma TranscriptFromFirstCompleted(endpoint: string, polls: nat -> Reply<PollBody>)
    requires PollFrom(endpoint, polls, 0).transcript.Some?
    ensures exists k :: (0 <= k < MAX_ATTEMPTS && Completed(polls(k))
      && polls(k).value.text == PollFrom(endpoint, polls, 0).transcript
      && forall j :: 0 <= j < k ==> Pending(polls(j)))
  {
    var k := FirstSettled(polls, 0);
    PollFromClosedForm(endpoint, polls, 0);
    assert k < MAX_ATTEMPTS && Completed(polls(k));
  }

  /** The loop neither uploads nor submits. */
  lemma {:induction false} PollFromOnlyPolls(endpoint: string, polls: nat -> Reply<PollBody>, from: nat)
    requires from <= MAX_ATTEMPTS
    ensures forall e :: e in PollFrom(endpoint, polls, from).effects ==> !e.Uploaded? && !e.Submitted?
    decreases MAX_ATTEMPTS - from
  {
    if from < MAX_ATTEMPTS && Pending(polls(from)) {
      PollFromOnlyPolls(endpoint, polls, from + 1);
    }
  }

  // ---------------------------------------------------------------------------
  // sendAudioToAssemblyAI, stopRecording and startRecording as functions of the oracles

  /** `sendAudioToAssemblyAI(uri)`: the file check, then the upload. */
  function SendAudioRun(os: Platform, uri: Option<string>, svc: Service): (r: Run)
    ensures r.effects != []
    ensures r.effects[0].Uploaded?
        <==> svc.fileInfo.Returned? && HasAudio(svc.fileInfo.value) && FormUri(os, uri).Returned?
  {
    match svc.fileInfo
    case Threw => Run(None, [Alerted(TranscribeFailed)])
    case Returned(info) =>
      if !HasAudio(info) then Run(None, [Alerted(AudioFileEmpty)])
      else
        match FormUri(os, uri)
        case Threw => Run(None, [Alerted(TranscribeFailed)])
        case Returned(fileUri) => UploadRun(fileUri, svc)
  }

  /** Step 1 on: the upload request, the `upload_url` check, then the submit. */
  function UploadRun(fileUri: Option<string>, svc: Service): (r: Run)
    ensures |r.effects| >= 2 && r.effects[0] == Uploaded(fileUri)
    ensures r.transcript.Some? ==> svc.uploadUrl.Returned? && Truthy(svc.uploadUrl.value)
  {
    var rest :=
      match svc.uploadUrl
      case Threw => Run(None, [Alerted(TranscribeFailed)])
      case Returned(url) =>
        if Truthy(url) then SubmitRun(url.value, svc) else Run(None, [Alerted(UploadFailed)]);
    Run(rest.transcript, [Uploaded(fileUri)] + rest.effects)
  }

  /** Step 2 on: the transcription request, then the polling of step 3. */
  function SubmitRun(audioUrl: string, svc: Service): (r: Run)
    ensures |r.effects| >= 2 && r.effects[0] == Submitted(audioUrl)
    ensures r.transcript.Some? ==> svc.transcriptId.Returned?
  {
    var rest :=
      match svc.transcriptId
      case Threw => Run(None, [Alerted(TranscribeFailed)])
      case Returned(id) => PollFrom(PollingEndpoint(id), svc.polls, 0);
    Run(rest.transcript, [Submitted(audioUrl)] + rest.effects)
  }

  /** `stopRecording()` after its opening `setIsRecording(false); setLoading(true)`. */
  function StopRecordingRun(os: Platform, recording: Option<Recording>, stopped: Reply<()>,
                            audioMode: Reply<()>, fileInfo: Reply<FileInfo>, svc: Service): (r: StopRun)
    ensures r.effects != [] && (r.effects[0].Alerted? || r.effects[0].Uploaded?)
  {
    if (recording.Some? && stopped.Threw?) || audioMode.Threw? || fileInfo.Threw? then
      StopRun(None, [Alerted(StopFailed)])
    else if !HasAudio(fileInfo.value) then
      StopRun(None, [Alerted(RecordingEmpty)])
    else
      var uri := if recording.Some? then recording.value.uri else None;
      var run := SendAudioRun(os, uri, svc);
      StopRun(Some(DisplayText(run.transcript)), run.effects)
  }

  /** The alert `getMicrophonePermission` shows, if any. */
  function PermissionAlerts(answer: Reply<bool>): (alerts: seq<Effect>)
    ensures alerts == [] <==> answer == Returned(true)
    ensures |alerts| <= 1
  {
    match answer
    case Returned(granted) => if granted then [] else [Alerted(PermissionDenied)]
    case Threw => [Alerted(PermissionFailed)]
  }

  // ---------------------------------------------------------------------------
  // Properties of a whole transcription

  /** A submit issues no more status requests than the loop allows. */
  lemma SubmitAtMostSixtyPolls(audioUrl: string, svc: Service)
    ensures Polls(SubmitRun(audioUrl, svc).effects) <= MAX_ATTEMPTS
  {
    var rest := SubmitRun(audioUrl, svc).effects[1..];
    assert SubmitRun(audioUrl, svc).effects == [Submitted(audioUrl)] + rest;
    TallyAppend([Submitted(audioUrl)], rest, IsPoll);
    TallyOne(Submitted(audioUrl), IsPoll);
    if svc.transcriptId.Returned? {
      AtMostSixtyPolls(PollingEndpoint(svc.transcriptId.value), svc.polls);
    } else {
      TallyAtMostLength(rest, IsPoll);
    }
  }

  /** An upload issues no more status requests than the loop allows. */
  lemma UploadAtMostSixtyPolls(fileUri: Option<string>, svc: Service)
    ensures Polls(UploadRun(fileUri, svc).effects) <= MAX_ATTEMPTS
  {
    var rest := UploadRun(fileUri, svc).effects[1..];
    assert UploadRun(fileUri, svc).effects == [Uploaded(fileUri)] + rest;
    TallyAppend([Uploaded(fileUri)], rest, IsPoll);
    TallyOne(Uploaded(fileUri), IsPoll);
    if svc.uploadUrl.Returned? && Truthy(svc.uploadUrl.value) {
      SubmitAtMostSixtyPolls(svc.uploadUrl.value.value, svc);
    } else {
      TallyAtMostLength(rest, IsPoll);
    }
  }

  /** A transcription never issues more than MAX_ATTEMPTS status requests. */
  lemma SendAtMostSixtyPolls(os: Platform, uri: Option<string>, svc: Service)
    ensures Polls(SendAudioRun(os, uri, svc).effects) <= MAX_ATTEMPTS
  {
    if svc.fileInfo.Returned? && HasAudio(svc.fileInfo.value) && FormUri(os, uri).Returned? {
      UploadAtMostSixtyPolls(FormUri(os, uri).value, svc);
    } else {
      TallyAtMostLength(SendAudioRun(os, uri, svc).effects, IsPoll);
    }
  }

  /** An upload reply without a truthy `upload_url` returns null, and no
      transcription job is submitted or polled. */
  lemma NoSubmitWithoutUploadUrl(os: Platform, uri: Option<string>, svc: Service)
    requires svc.uploadUrl.Returned? && !Truthy(svc.uploadUrl.value)
    ensures SendAudioRun(os, uri, svc).transcript == None
    ensures forall e :: e in SendAudioRun(os, uri, svc).effects ==> !e.Submitted? && !e.Polled?
  {
  }

  /** A transcript comes back only from a usable file, a truthy upload URL and
      a "completed" status reply. */
  lemma SendTranscriptNeedsCompletedJob(os: Platform, uri: Option<string>, svc: Service)
    requires SendAudioRun(os, uri, svc).transcript.Some?
    ensures svc.fileInfo.Returned? && HasAudio(svc.fileInfo.value)
    ensures svc.uploadUrl.Returned? && Truthy(svc.uploadUrl.value)
    ensures svc.transcriptId.Returned?
    ensures exists k :: (0 <= k < MAX_ATTEMPTS && Completed(svc.polls(k))
      && svc.polls(k).value.text == SendAudioRun(os, uri, svc).transcript)
  {
    TranscriptFromFirstCompleted(PollingEndpoint(svc.transcriptId.value), svc.polls);
  }

  /** Nothing is uploaded unless both file checks (after stopping, and again
      before the upload) found a non-empty file. */
  lemma UploadNeedsAudio(os: Platform, recording: Option<Recording>, stopped: Reply<()>,
                         audioMode: Reply<()>, fileInfo: Reply<FileInfo>, svc: Service)
    requires !(fileInfo.Returned? && HasAudio(fileInfo.value))
          || !(svc.fileInfo.Returned? && HasAudio(svc.fileInfo.value))
    ensures forall e :: (e in StopRecordingRun(os, recording, stopped, audioMode, fileInfo, svc).effects
      ==> !e.Uploaded? && !e.Submitted? && !e.Polled?)
    ensures StopRecordingRun(os, recording, stopped, audioMode, fileInfo, svc).effects
      == [Alerted(if (recording.Some? && stopped.Threw?) || audioMode.Threw? || fileInfo.Threw? then StopFailed
                  else if !HasAudio(fileInfo.value) then RecordingEmpty
                  else if svc.fileInfo.Threw? then TranscribeFailed
                  else AudioFileEmpty)]
  {
  }

  /** A stop that reached the service always shows a non-empty text. */
  lemma StopShowsTextOrKeepsIt(os: Platform, recording: Option<Recording>, stopped: Reply<()>,
                               audioMode: Reply<()>, fileInfo: Reply<FileInfo>, svc: Service)
    ensures var r := StopRecordingRun(os, recording, stopped, audioMode, fileInfo, svc);
      r.shown.Some? <==> (!(recording.Some? && stopped.Threw?) && audioMode.Returned?
                          && fileInfo.Returned? && HasAudio(fileInfo.value))
    ensures var r := StopRecordingRun(os, recording, stopped, audioMode, fileInfo, svc);
      r.shown.Some? ==> r.shown.value != ""
  {
  }

  // ---------------------------------------------------------------------------
  // The screen

  class HomeScreen {
    const platform: Platform
    var text: string
    var isRecording: bool
    var loading: bool
    var recording: Option<Recording>
    /** Everything the screen has done to the outside world, oldest first. */
    var effects: seq<Effect>

    constructor (platform: Platform)
      ensures this.platform == platform
      ensures text == "" && !isRecording && !loading && recording == None && effects == []
    {
      this.platform := platform;
      text := "";
      isRecording := false;
      loading := false;
      recording := None;
      effects := [];
    }

    function Control(): Control
      reads this
    {
      ControlFor(loading, isRecording)
    }

    function Label(): string
      reads this
    {
      StatusLabel(loading, isRecording)
    }

    /** `getMicrophonePermission()`. */
    method GetMicrophonePermission(answer: Reply<bool>) returns (granted: bool)
      modifies this`effects
      ensures granted <==> answer == Returned(true)
      ensures effects == old(effects) + PermissionAlerts(answer)
    {
      match answer {
        case Threw =>
          effects := effects + [Alerted(PermissionFailed)];
          granted := false;
        case Returned(g) =>
          if !g {
            effects := effects + [Alerted(PermissionDenied)];
            granted := false;
          } else {
            granted := true;
          }
      }
    }

    /** `startRecording()`: permission, audio mode, then `Recording.createAsync`. */
    method StartRecording(answer: Reply<bool>, audioMode: Reply<()>, created: Reply<Recording>)
      modifies this
      ensures loading == old(loading)
      ensures answer != Returned(true) ==>
        text == old(text) && isRecording == old(isRecording) && recording == old(recording)
        && effects == old(effects) + PermissionAlerts(answer)
      ensures answer == Returned(true) && audioMode.Threw? ==>
        text == old(text) && !isRecording && recording == old(recording)
        && effects == old(effects) + [Alerted(StartFailed)]
      ensures answer == Returned(true) && audioMode.Returned? && created.Threw? ==>
        text == "" && !isRecording && recording == old(recording)
        && effects == old(effects) + [Alerted(StartFailed)]
      ensures answer == Returned(true) && audioMode.Returned? && created.Returned? ==>
        text == "" && isRecording && recording == Some(created.value) && effects == old(effects)
        && Label() == LABEL_RECORDING
    {
      var hasPermission := GetMicrophonePermission(answer);
      if !hasPermission {
        return;
      }
      if audioMode.Threw? {
        effects := effects + [Alerted(StartFailed)];
        isRecording := false;
        return;
      }
      isRecording := true;
      text := "";
      match created {
        case Threw =>
          effects := effects + [Alerted(StartFailed)];
          isRecording := false;
        case Returned(r) =>
          recording := Some(r);
      }
    }

    /** `stopRecording()`: stop, check the file, transcribe, show the result.
        Every path ends with neither recording nor loading. */
    method StopRecording(stopped: Reply<()>, audioMode: Reply<()>, fileInfo: Reply<FileInfo>, svc: Service)
      modifies this
      ensures !isRecording && !loading && Control() == MicButton && Label() == LABEL_IDLE
      ensures recording == old(recording)
      ensures var r := StopRecordingRun(platform, old(recording), stopped, audioMode, fileInfo, svc);
        text == (if r.shown.Some? then r.shown.value else old(text))
        && effects == old(effects) + r.effects
    {
      isRecording := false;
      loading := true;
      if (recording.Some? && stopped.Threw?) || audioMode.Threw? || fileInfo.Threw? {
        effects := effects + [Alerted(StopFailed)];
        loading := false;
        return;
      }
      var uri := if recording.Some? then recording.value.uri else None;
      if !HasAudio(fileInfo.value) {
        effects := effects + [Alerted(RecordingEmpty)];
        loading := false;
        return;
      }
      var transcript := SendAudioToAssemblyAI(uri, svc);
      text := DisplayText(transcript);
      loading := false;
    }

    /** `sendAudioToAssemblyAI(uri)`: its try block returns null from every
        failure, after one alert. */
    method SendAudioToAssemblyAI(uri: Option<string>, svc: Service) returns (transcript: Option<string>)
      modifies this`effects
      ensures transcript == SendAudioRun(platform, uri, svc).transcript
      ensures effects == old(effects) + SendAudioRun(platform, uri, svc).effects
    {
      if svc.fileInfo.Threw? {
        effects := effects + [Alerted(TranscribeFailed)];
        return None;
      }
      if !HasAudio(svc.fileInfo.value) {
        effects := effects + [Alerted(AudioFileEmpty)];
        return None;
      }
      var form := FormUri(platform, uri);
      if form.Threw? {
        effects := effects + [Alerted(TranscribeFailed)];
        return None;
      }
      transcript := Upload(form.value, svc);
    }

    /** Step 1 of `sendAudioToAssemblyAI`: upload the form and check the reply
        for an `upload_url`. */
    method Upload(fileUri: Option<string>, svc: Service) returns (transcript: Option<string>)
      modifies this`effects
      ensures transcript == UploadRun(fileUri, svc).transcript
      ensures effects == old(effects) + UploadRun(fileUri, svc).effects
    {
      ghost var run := UploadRun(fileUri, svc);
      ghost var rest := run.effects[1..];
      assert run.effects == [Uploaded(fileUri)] + rest;
      AppendAssoc(effects, [Uploaded(fileUri)], rest);
      effects := effects + [Uploaded(fileUri)];
      if svc.uploadUrl.Threw? {
        effects := effects + [Alerted(TranscribeFailed)];
        return None;
      }
      var audioUrl := svc.uploadUrl.value;
      if !Truthy(audioUrl) {
        effects := effects + [Alerted(UploadFailed)];
        return None;
      }
      transcript := Submit(audioUrl.value, svc);
    }

    /** Step 2 of `sendAudioToAssemblyAI`: submit the transcription request,
        then poll the job it names. */
    method Submit(audioUrl: string, svc: Service) returns (transcript: Option<string>)
      modifies this`effects
      ensures transcript == SubmitRun(audioUrl, svc).transcript
      ensures effects == old(effects) + SubmitRun(audioUrl, svc).effects
    {
      ghost var run := SubmitRun(audioUrl, svc);
      ghost var rest := run.effects[1..];
      assert run.effects == [Submitted(audioUrl)] + rest;
      AppendAssoc(effects, [Submitted(audioUrl)], rest);
      effects := effects + [Submitted(audioUrl)];
      if svc.transcriptId.Threw? {
        effects := effects + [Alerted(TranscribeFailed)];
        return None;
      }
      var endpoint := PollingEndpoint(svc.transcriptId.value);
      transcript := PollTranscript(endpoint, svc.polls);
    }

    /** The polling loop of `sendAudioToAssemblyAI`: at most MAX_ATTEMPTS status
        requests, a wait after each pending reply, and the try block's catch for
        a request that throws. */
    method PollTranscript(endpoint: string, polls: nat -> Reply<PollBody>) returns (transcript: Option<string>)
      modifies this`effects
      ensures transcript == PollFrom(endpoint, polls, 0).transcript
      ensures effects == old(effects) + PollFrom(endpoint, polls, 0).effects
    {
      ghost var start := effects;
      ghost var whole := PollFrom(endpoint, polls, 0);
      ghost var done: seq<Effect> := [];
      var attempts: nat := 0;
      while attempts < MAX_ATTEMPTS
        invariant attempts <= MAX_ATTEMPTS
        invariant effects == start + done
        invariant whole.transcript == PollFrom(endpoint, polls, attempts).transcript
        invariant whole.effects == done + PollFrom(endpoint, polls, attempts).effects
        decreases MAX_ATTEMPTS - attempts
      {
        ghost var cur := PollFrom(endpoint, polls, attempts);
        var reply := polls(attempts);
        attempts := attempts + 1;
        if reply.Threw? {
          effects := effects + [Polled(endpoint), Alerted(TranscribeFailed)];
          assert cur == Run(None, [Polled(endpoint), Alerted(TranscribeFailed)]);
          AppendAssoc(start, done, cur.effects);
          return None;
        }
        if reply.value.status == "completed" {
          effects := effects + [Polled(endpoint)];
          assert cur == Run(reply.value.text, [Polled(endpoint)]);
          AppendAssoc(start, done, cur.effects);
          return reply.value.text;
        } else if reply.value.status == "error" {
          effects := effects + [Polled(endpoint), Alerted(TranscriptionError(reply.value.error))];
          assert cur == Run(None, [Polled(endpoint), Alerted(TranscriptionError(reply.value.error))]);
          AppendAssoc(start, done, cur.effects);
          return None;
        }
        var step := [Polled(endpoint), Waited(POLL_DELAY_MS)];
        effects := effects + step;
        ghost var next := PollFrom(endpoint, polls, attempts);
        assert cur == Run(next.transcript, step + next.effects);
        AppendAssoc(start, done, step);
        AppendAssoc(done, step, next.effects);
        done := done + step;
      }
      AppendAssoc(start, done, [Alerted(TimedOut)]);
      effects := effects + [Alerted(TimedOut)];
      return None;
    }
  }

  /** The service of a session whose job is reported "processing" twice and
      then "completed" with "hello world". */
  function HelloWorldReplies(n: nat): Reply<PollBody> {
    if n < 2 then Returned(PollBody("processing", None, ""))
    else Returned(PollBody("completed", Some("hello world"), ""))
  }

  function HelloWorldService(): Service {
    Service(Returned(Present(4096)), Returned(Some("https://cdn.example/audio")), Returned(Some("job")),
            HelloWorldReplies)
  }

  const HELLO_ENDPOINT := PollingEndpoint(Some("job"))

  /** The effects of the scenario's upload of `path`, submit and polling. */
  function HelloWorldEffects(path: string): seq<Effect> {
    [Uploaded(Some(path)), Submitted("https://cdn.example/audio")]
      + (Rounds(HELLO_ENDPOINT, 2) + [Polled(HELLO_ENDPOINT)])
  }

  /** Two "processing" replies and a "completed" one: three requests, two waits. */
  lemma HelloWorldPolling(path: string)
    ensures PollFrom(HELLO_ENDPOINT, HelloWorldReplies, 0)
         == Run(Some("hello world"), Rounds(HELLO_ENDPOINT, 2) + [Polled(HELLO_ENDPOINT)])
    ensures Polls(HelloWorldEffects(path)) == 3 && Waits(HelloWorldEffects(path)) == 2
  {
    var loop := Rounds(HELLO_ENDPOINT, 2) + [Polled(HELLO_ENDPOINT)];
    var pre := [Uploaded(Some(path)), Submitted("https://cdn.example/audio")];
    CompletedStopsPolling(HELLO_ENDPOINT, HelloWorldReplies, 2);
    LoopEffectsCount(HELLO_ENDPOINT, HelloWorldReplies, 2);
    TallyAppend(pre, loop, IsPoll);
    TallyAppend(pre, loop, IsWait);
  }

  /** The iOS file URI loses its scheme before the upload. */
  lemma HelloWorldUpload(path: string)
    ensures SendAudioRun(IOS, Some(FILE_SCHEME + path), HelloWorldService())
         == Run(Some("hello world"), HelloWorldEffects(path))
  {
    var audio := "https://cdn.example/audio";
    var loop := Rounds(HELLO_ENDPOINT, 2) + [Polled(HELLO_ENDPOINT)];
    assert SubmitRun(audio, HelloWorldService()) == Run(Some("hello world"), [Submitted(audio)] + loop) by {
      HelloWorldPolling(path);
    }
    IosStripsFileScheme(path);
    assert [Uploaded(Some(path))] + ([Submitted(audio)] + loop) == HelloWorldEffects(path);
  }

  /** Stopping an iOS recording saved under "file://" + `path` uploads `path`,
      polls three times with a wait after each pending reply, and shows
      "hello world". */
  lemma HelloWorldSession(path: string)
    ensures var r := StopRecordingRun(IOS, Some(Recording(Some(FILE_SCHEME + path))),
                                      Returned(()), Returned(()), Returned(Present(4096)), HelloWorldService());
      && r.shown == Some("hello world")
      && r.effects == HelloWorldEffects(path)
      && r.effects[0] == Uploaded(Some(path))
      && Polls(r.effects) == 3 && Waits(r.effects) == 2
  {
    HelloWorldUpload(path);
    HelloWorldPolling(path);
  }
}
