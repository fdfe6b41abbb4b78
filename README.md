# Vision: recording, transcription, onboarding and launch routing

A Dafny model of the decision logic of the Vision React Native app:

- **Home screen** (`home.dfy`, module `Home`). The recording and transcription session:
  - a microphone-permission gate, then `startRecording` and `stopRecording`;
  - a check for a non-empty audio file, made once after stopping and again before the upload;
  - on every platform but Android, removing the first `file://` from the upload URI;
  - the upload, and the check that its reply carries `upload_url`;
  - the transcription submit;
  - a polling loop of at most 60 status requests that dispatches on `"completed"`, `"error"` or anything else;
  - the status label and control shown under the transcript.
- **Onboarding pager** (`onboarding.dfy`, module `Onboarding`):
  - the "Skip" handler, which either advances one of the 3 slides, or on the last slide persists the `"onboarding"` flag and opens the home screen;
  - the pagination dots.
- **Launch route** (`launch.dfy`, module `Launch`). It reads the persisted flag once and redirects to onboarding or home, rendering nothing until the read has finished.
- **Support modules:**
  - `js.dfy` (module `Js`) holds the JavaScript values the screens rely on: null/undefined as `Option`, a settled promise as `Reply`, string truthiness, and `String.prototype.replace` with a string pattern and a replacement that holds no `$` patterns.
  - `device.dfy` (module `Device`) holds the host services: the AsyncStorage key-value store and the router's navigation history, as a class whose fields the calls update.

Every device or network call is an input, either a `Reply` (rejected or fulfilled) or a function from the attempt number to a `Reply`. This covers:

- the permission request and the audio-mode calls;
- `Recording.createAsync` and `stopAndUnloadAsync`;
- both `FileSystem.getInfoAsync` calls;
- the upload, submit and status requests.

What the home screen does to the outside world is appended to the screen's `effects` field, in order: alerts (with their exact titles and messages), the upload, submit and status requests, and the 5-second waits. Each screen method is proved against a function of its inputs: `SendAudioRun`, `UploadRun`, `SubmitRun`, `PollFrom`, `StopRecordingRun` or `PermissionAlerts`. The lemmas state what those functions guarantee.

## Model

| member | source | states |
|---|---|---|
| Js.ReplaceFirst | screens/home.screen.tsx:148 | the result is the input unchanged in length, or with exactly one `pat` exchanged for `rep` |
| Js.ReplaceFirstAt | screens/home.screen.tsx:148 | `replace` with a string pattern replaces exactly the first occurrence and keeps everything around it |
| Js.ReplaceFirstAbsent | screens/home.screen.tsx:148 | a string without the pattern comes back unchanged |
| Device.Host.SetItem | screens/onboarding.screen.tsx:47 | the store maps the key to the new value, reading the key back gives the value, and reading any other key gives what it gave before |
| Device.Host.Push | screens/onboarding.screen.tsx:48 | the route is appended to the navigation history |
| Home.HomeScreen.GetMicrophonePermission | screens/home.screen.tsx:34-53 | permission counts as granted exactly when the request fulfilled with `granted`; a denial alerts "Permission"/allow-access and a rejection alerts "Permission"/error, once each |
| Home.PermissionAlerts | screens/home.screen.tsx:34-53 | at most one alert; no alert exactly when the request fulfilled with `granted` true |
| Home.HomeScreen.constructor | screens/home.screen.tsx:22-25 | the screen starts with empty `text`, neither recording nor loading, and no recording |
| Home.HomeScreen.StartRecording | screens/home.screen.tsx:75-95 | denied permission leaves `text`, `isRecording` and `recording` alone. A failing audio-mode call alerts and leaves `isRecording` false. A failing `createAsync` clears `text`, alerts and resets `isRecording` to false. Success clears `text`, sets `isRecording`, stores the recording and shows the recording label. `loading` is never touched |
| Home.HomeScreen.StopRecording | screens/home.screen.tsx:97-128 | every exit leaves `isRecording` and `loading` false, so the microphone button and the idle label show again. `text` and the appended effects are those of `StopRecordingRun` |
| Home.StopRecordingRun | screens/home.screen.tsx:97-128 | every stop does something visible: its first effect is an alert or the upload |
| Home.StopShowsTextOrKeepsIt | screens/home.screen.tsx:97-128 | `text` is replaced exactly when stopping, the audio mode and the file check all succeed with a non-empty file; the new text is never empty |
| Home.DisplayText | screens/home.screen.tsx:121 | a truthy transcript is shown as is; null or "" is shown as "No transcription available" |
| Home.UploadNeedsAudio | screens/home.screen.tsx:112-117 | if either file check fails (missing or empty file), nothing is uploaded, submitted or polled, and exactly one alert is raised, the one the failing step raises |
| Home.SendAudioRun | screens/home.screen.tsx:130-174 | something always happens, and the upload is the first effect exactly when the pre-upload file check passes and the form URI could be built |
| Home.UploadRun | screens/home.screen.tsx:157-174 | the upload request comes first and is followed by at least one more effect; a transcript needs a truthy `upload_url` |
| Home.SubmitRun | screens/home.screen.tsx:178-197 | the submit request, carrying the upload URL, comes first and is followed by at least one more effect; a transcript needs a submit reply |
| Home.PollingEndpoint | screens/home.screen.tsx:197 | the endpoint is `/v2/transcript/` followed by the job id, or by `undefined` when the reply carries none |
| Home.FormUri | screens/home.screen.tsx:148 | Android uploads the URI as it is; elsewhere only a missing URI throws, and the URI can only get shorter |
| Home.HomeScreen.SendAudioToAssemblyAI | screens/home.screen.tsx:130-234 | returns the transcript and appends the effects given by `SendAudioRun`: the pre-upload file check, the iOS URI rewrite (an undefined URI throws), then the upload |
| Home.HomeScreen.Upload | screens/home.screen.tsx:145-174 | returns and appends what `UploadRun` gives: one upload request, then the `upload_url` check or the catch |
| Home.HomeScreen.Submit | screens/home.screen.tsx:178-197 | returns and appends what `SubmitRun` gives: one submit request with the upload URL, then polling of `/v2/transcript/<id>` |
| Home.HomeScreen.PollTranscript | screens/home.screen.tsx:196-228 | the `while (attempts < maxAttempts)` loop returns and appends exactly what `PollFrom` from attempt 0 gives |
| Home.IosStripsFileScheme | screens/home.screen.tsx:148 | off Android a `file://<path>` URI is uploaded as `<path>` |
| Home.IosKeepsUriWithoutScheme | screens/home.screen.tsx:148 | off Android a URI without `file://` is uploaded unchanged |
| Home.NoSubmitWithoutUploadUrl | screens/home.screen.tsx:169-174 | an upload reply without a truthy `upload_url` returns null, and nothing is submitted or polled |
| Home.SendTranscriptNeedsCompletedJob | screens/home.screen.tsx:130-233 | a non-null transcript implies a non-empty file, a truthy upload URL and a submitted job, and it is the text of a "completed" reply within the first 60 attempts |
| Home.SubmitAtMostSixtyPolls | screens/home.screen.tsx:178-228 | from the submit on, at most 60 status requests are issued |
| Home.UploadAtMostSixtyPolls | screens/home.screen.tsx:157-228 | from the upload on, at most 60 status requests are issued |
| Home.SendAtMostSixtyPolls | screens/home.screen.tsx:198-203 | a whole transcription issues at most 60 status requests |
| Home.PollFrom | screens/home.screen.tsx:201-228 | the loop from a given attempt makes at least one effect and at most two per remaining attempt plus one |
| Home.FirstSettled | screens/home.screen.tsx:201-223 | the first attempt whose reply is not pending (or 60 if there is none): every earlier reply was pending |
| Home.FirstSettledIs | screens/home.screen.tsx:201-223 | any attempt with only pending replies before it and a settling reply at it is `FirstSettled` |
| Home.PollFromClosedForm | screens/home.screen.tsx:201-228 | the loop makes one request and one wait per pending reply, then the closing step of the first settling reply (or the timeout alert), and returns that reply's outcome |
| Home.LoopEffectsCount | screens/home.screen.tsx:201-224 | a loop that settles at attempt `k` issues `k + 1` requests (60 on timeout) and `k` waits |
| Home.AtMostSixtyPolls | screens/home.screen.tsx:198-203 | the loop issues between 1 and 60 status requests and at most 60 waits |
| Home.CompletedStopsPolling | screens/home.screen.tsx:210-216 | the first "completed" reply, after only pending ones, returns its `text`; its request is the last effect |
| Home.ErrorStopsPolling | screens/home.screen.tsx:217-220 | the first "error" reply, after only pending ones, returns null after alerting its `error`; no request follows |
| Home.TimeoutAfterSixtyPending | screens/home.screen.tsx:221-228 | 60 pending replies end with 60 requests, 60 waits, the timeout alert and null |
| Home.TranscriptFromFirstCompleted | screens/home.screen.tsx:210-216 | a non-null result is the text of a "completed" reply that only pending replies precede |
| Home.PollFromOnlyPolls | screens/home.screen.tsx:201-224 | the loop never uploads or submits |
| Home.ControlFor | screens/home.screen.tsx:273-292 | the spinner shows exactly while loading; the stop control exactly while recording and not loading |
| Home.StatusLabel | screens/home.screen.tsx:311-315 | the recording label shows exactly while recording; the processing label exactly while loading and not recording |
| Home.LabelAgreesWithControl | screens/home.screen.tsx:273-315 | the stop control comes with the recording label; the processing label comes with the spinner; the idle label shows exactly with the microphone button |
| Home.HelloWorldPolling | screens/home.screen.tsx:201-223 | two "processing" replies and then "completed" give that text after three requests and two waits |
| Home.HelloWorldUpload | screens/home.screen.tsx:136-197 | on iOS, a healthy file at `file://<path>` is uploaded as `<path>` and the submitted job's text is returned |
| Home.HelloWorldSession | screens/home.screen.tsx:97-128 | stopping such a recording shows "hello world" after one upload, one submit, three status requests and two waits |
| Onboarding.SkipFrom | screens/onboarding.screen.tsx:39-49 | a skip finishes exactly when the next index is not below the slide count, and otherwise moves to the next index |
| Onboarding.SkipMany | screens/onboarding.screen.tsx:39-49 | repeated skips never move back, never leave the slides from an index below the count, and write the flag at most once per skip |
| Onboarding.SkipStaysInRange | screens/onboarding.screen.tsx:38-50 | from a slide in range, a skip moves to the next slide, still in range, or finishes, and it finishes exactly on the last slide |
| Onboarding.SkipManyClosedForm | screens/onboarding.screen.tsx:38-50 | `p` skips from slide `i` reach slide min(i+p, n-1); every skip past the last slide writes the flag once |
| Onboarding.SkipManyStep | screens/onboarding.screen.tsx:38-50 | one more press after any number of presses is exactly one further skip from where they ended |
| Onboarding.SkipsFromFirstSlide | screens/onboarding.screen.tsx:27-49 | from the initial slide 0, skips stay in `[0, n)`, and the flag has been written once at least `n` skips have been made, and never before |
| Onboarding.ThirdSkipFinishes | screens/onboarding.screen.tsx:38-49 | with the 3 slides of `configs/contants.tsx`, two skips reach slide 2 without writing, and the third writes the flag |
| Onboarding.DotOpacities | screens/onboarding.screen.tsx:81-91 | one dot per slide |
| Onboarding.ExactlyOneOpaqueDot | screens/onboarding.screen.tsx:81-91 | dot `k` has opacity 1 exactly when `k` is the active index and 0.5 otherwise; an in-range index gives exactly one opaque dot |
| Onboarding.OnboardingScreen.constructor | screens/onboarding.screen.tsx:27 | the pager starts on slide 0 |
| Onboarding.OnboardingScreen.HandleSkip | screens/onboarding.screen.tsx:38-50 | before the last slide: advance by one with storage and navigation unchanged. On the last slide: keep the index, write `"onboarding"` = `"true"` and push `/home/index` (neither happens if the write rejects) |
| Onboarding.OnboardingScreen.PressSkip | screens/onboarding.screen.tsx:38-50 | any number of taps on "Skip" from a slide in range end on the slide `SkipMany` gives; the flag is stored once the last slide has been skipped; home is pushed once per skip past it; exactly one dot is opaque |
| Launch.RedirectTarget | app/index.tsx:21 | onboarding exactly while `isOnboarding`, home otherwise |
| Launch.LaunchRoute | app/index.tsx:10-21 | the launch ends on home exactly when the stored flag is truthy, and on onboarding exactly when it is not |
| Launch.LaunchScreen.constructor | app/index.tsx:6-7 | starts onboarding and loading, with nothing rendered |
| Launch.LaunchScreen.Rendered | app/index.tsx:19-21 | nothing exactly while loading; the home redirect exactly once loaded and not onboarding |
| Launch.LaunchScreen.CheckOnboarding | app/index.tsx:8-19 | once the read resolves, `loading` is false and `isOnboarding` is cleared exactly by a truthy flag, so the redirect is `LaunchRoute` of the flag; while the read has not resolved, nothing is rendered |
| Launch.FinishedFlagRoutesHome | app/index.tsx:11-21 | after onboarding has stored `"true"`, every later launch routes home |
| Launch.FirstLaunchThenRelaunch | app/index.tsx:5-23 | a first launch on an empty store redirects to onboarding; three skips push `/home/index`; the next launch redirects to home |

## Left out

- Rendering, styling, fonts, images and animations. The early `return null` while fonts fail to load (screens/onboarding.screen.tsx:24-26) is not modelled; the transcript box shown for a truthy `text` is not modelled either.
- `handleScroll` and the scroll offset `width * nextIndex`: both use floating-point division and `Math.round`. The scroll position is not modelled, only `activeIndex`.
- Timers: the 5-second `setTimeout` is logged as a `Waited(5000)` effect, not timed.
- `console` logging, the recording options, the audio-mode arguments and the request headers. The API credential is deliberately not reproduced.
- HTTP status codes and the shape of the JSON replies are not modelled. Only the fields the code reads are: `upload_url`, `id`, `status`, `text` and `error`. A missing `id` gives the endpoint `/v2/transcript/undefined`, as the template string does. The model does not tell `null` from `undefined`: an `id` that is present but `null` would give `/v2/transcript/null` in the source, and the model gives `.../undefined` for it as well. `error` is modelled as a string.
- React scheduling:
  - each handler is modelled as one atomic step, so the intermediate renders between awaits cannot be observed (for example `loading` being true during the upload);
  - stale closures and state batching are not modelled;
  - a second tap while a session is running is not modelled.
- Home.HomeScreen.StopRecording: it states the state at exit, not the `isRecording = false, loading = true` that holds from entry until the handler finishes.
- Home.HomeScreen.SendAudioToAssemblyAI: the source's single function is split into `Upload`, `Submit` and `PollTranscript`, which are called in sequence, so the effects and branches are the same.
- Unhandled rejections:
  - if `AsyncStorage.getItem` rejects, the launch effect stops and the screen stays blank (modelled: `loading` stays true);
  - if `AsyncStorage.setItem` rejects, the skip handler stops before navigating, and the store is taken to be unchanged.
- Js.ReplaceFirst: the replacement is inserted literally. JavaScript would expand `$&`, `$$`, `` $` `` and `$'` in it. The only call, screens/home.screen.tsx:148, passes `""`, so nothing there depends on it.
- Platform: `Home.Platform` has `Android` and `IOS`, and `IOS` stands for every platform other than Android, because line 148 tests only for `"android"`.
- `configs/contants.tsx` contributes only its length, 3, as `Onboarding.SLIDE_COUNT`. The slide contents are UI.
