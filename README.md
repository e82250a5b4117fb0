# Gif replay recorder: capture session and preview player

This project models the two controller classes of a Unity gif recorder:

- `GetSocialCapture`, the capture session. It owns the flags `initialized`, `isSaving`,
  `isRecorderer` and `isSaved`, the session id `_captureId`, the result path `resultFilePath`,
  the recorder attached to the captured camera (its `CurrentState` is `Recording`, `OnHold` or
  `RecordNow`), the static session counter `totalRecords` and the shared frame store. Its public
  operations are start, stop, resume, capture-one-frame, generate (with a completion that runs
  later on the main thread), clean and change camera.
- `GetSocialCapturePreview`, the player that copies the stored frames into textures and shows
  them in turn, looping or stopping at the last frame.

The model has three layers:

- `CaptureModel` describes the whole session as one value (`Session`). Each operation is a step
  function that returns what the operation reports and the session it leaves behind.
- `SocialCapture.GetSocialCapture` is an imperative class with the original class's fields. Each of its
  methods is proved to leave exactly the state its step function computes from the old state.
  Both layers model exceptions as an `Outcome`: `SavingInProgress` for the three explicit throws (in `StartCapture`, `CleanAll` and `CleanUp`),
  `NullRecorder` for a dereference of a missing recorder. When an exception is raised partway,
  the state keeps what the code had already changed. Two examples: `GenerateCapture` without a
  recorder has already set `isSaving`, and `StartCapture` without one has already opened the
  session.
- `CaptureRuns` proves properties of arbitrary sequences of calls.

`SessionIds` builds session ids as `timestamp + "_" + counter` and proves that the counter can
be read back from an id. So two sessions opened with different counter values never share an id
or a result file, whatever the timestamps are.

Other behaviours the code has, modelled as written:

- `GenerateCapture` does not check `isSaving`. Two generations queue two completions. Once the first completion has run, `CleanAll` can clear the frames the second generator is still reading.
- With no frames stored, `GenerateCapture` never resets `isSaving`. Start and clean are then
  refused until some later generate, with frames, completes.
- `CaptureFrame` opens a session even while saving, provided no session exists yet.

## Model

| member | source | states |
|---|---|---|
| SessionIds.Decimal | Scripts/GetSocialCapture.cs:274 | the counter's text is a non-empty string of decimal digits |
| SessionIds.DecimalRoundTrip | Scripts/GetSocialCapture.cs:274 | reading the digits back gives the counter value |
| SessionIds.CounterOfCaptureId | Scripts/GetSocialCapture.cs:274 | an id built from any timestamp and counter n yields n back from the digits after its last underscore |
| SessionIds.CaptureIdInjective | Scripts/GetSocialCapture.cs:274 | equal ids imply equal counter values, so sessions with different counters have different ids |
| SessionIds.ResultPathInjective | Scripts/GetSocialCapture.cs:275-276 | in one result directory, `GifRecorder_<id>.gif` paths of different ids differ |
| CaptureModel.StartWhileSavingFails | Scripts/GetSocialCapture.cs:95-103 | while saving, start raises the saving conflict; the result is exactly what Init alone would leave; id, path, counter, saved flag and frames are unchanged; an existing recorder is kept; when already initialized nothing changes |
| CaptureModel.StartCaptureSucceeds | Scripts/GetSocialCapture.cs:95-109 | start succeeds iff not saving and a recorder exists after Init; it then leaves the recorder Recording, isRecorderer and isSaved false, the counter one higher, the id `now_<old counter>`, its result path and an empty store of the configured capacity |
| CaptureModel.StopCaptureOnce | Scripts/GetSocialCapture.cs:111-119 | stop returns true iff recording; on false nothing changes; on true only isRecorderer (true) and the state (OnHold) change; afterwards not recording, and a second stop returns false and changes nothing |
| CaptureModel.ResumeCaptureEffect | Scripts/GetSocialCapture.cs:121-131 | without an id or recorder nothing changes; otherwise the recorder is set to Recording and no other field changes |
| CaptureModel.CaptureFrameEffect | Scripts/GetSocialCapture.cs:133-140 | a session is opened (counter +1) iff there was no id; the call succeeds iff there is a recorder, leaving it RecordNow and isRecording true; saving flags untouched |
| CaptureModel.GenerateCaptureEffect | Scripts/GetSocialCapture.cs:142-166 | isSaving is always true afterwards; without a recorder it raises after only that change; otherwise the state is OnHold; zero frames deliver an empty array with no job queued; frames queue one completion |
| CaptureModel.GenerateThenComplete | Scripts/GetSocialCapture.cs:148-160 | a started generation queues a completion that clears isSaving, sets isSaved and hands over the file bytes |
| CaptureModel.EmptyGenerateKeepsSaving | Scripts/GetSocialCapture.cs:162-166 | after generating from an empty store isSaving stays true, so a later start and a later clean are refused |
| CaptureModel.CleanAllEffect | Scripts/GetSocialCapture.cs:174-188 | while saving it raises and changes nothing; otherwise not recording, isRecorderer and isSaved false, store empty, id and counter kept, path `""` iff files are cleaned, otherwise unchanged |
| CaptureModel.ChangeCameraWhileRecording | Scripts/GetSocialCapture.cs:190-224 | while recording, changing camera changes nothing |
| CaptureModel.ChangeCameraEffect | Scripts/GetSocialCapture.cs:190-220 | when not recording it fails iff a recorder exists while saving (then nothing changes); otherwise the new camera's recorder is taken with the configured frame rate, or the old one kept when there is no camera, and an old session's frames and saved flag are cleared |
| CaptureModel.InitSessionId | Scripts/GetSocialCapture.cs:272-279 | a new session's id carries the counter value it consumed, the counter goes up by one, and the path is built from that id |
| CaptureRuns.ApplyCounter | Scripts/GetSocialCapture.cs:272-274 | any single call leaves the counter alone or raises it by one, and in the latter case the current id carries the old counter |
| CaptureRuns.IssuedCounters | Scripts/GetSocialCapture.cs:272-274 | along any run, the i-th session opened has counter value start+i, and the final counter equals start plus the number of sessions opened |
| CaptureRuns.IssuedDistinct | Scripts/GetSocialCapture.cs:272-276 | along any run of calls, no two opened sessions have the same id |
| CaptureRuns.ApplyPreservesInv | Scripts/GetSocialCapture.cs:95-188 | every call keeps the invariant that the current id's counter is below totalRecords and that a session has a result path |
| CaptureRuns.RunPreservesInv | Scripts/GetSocialCapture.cs:95-188 | the invariant holds after any run of calls |
| CaptureRuns.NextSessionIsFresh | Scripts/GetSocialCapture.cs:272-274 | under the invariant, opening a session never reuses the current id |
| CaptureRuns.ApplyWhileSaving | Scripts/GetSocialCapture.cs:95-188 | while saving with an open session, any call other than a completion keeps saving, the id, path, counter, frames and capacity |
| CaptureRuns.SavingFreezesSession | Scripts/GetSocialCapture.cs:95-188 | while saving with a session open, until a completion runs, no sequence of calls ends saving, opens a session, changes the result path or touches the stored frames |
| CaptureRuns.DoubleGenerateThenClean | Scripts/GetSocialCapture.cs:142-188 | two generations from a non-empty store queue two completions; after the first one runs, saving has ended, so `CleanAll(false)` empties the store while one completion is still pending |
| SocialCapture.GetSocialCapture.constructor | Scripts/GetSocialCapture.cs:36-89 | the defaults: frame rates 15 and 30, 50 frames, looping, all flags false, no id, path or recorder |
| SocialCapture.GetSocialCapture.IsRecording | Scripts/GetSocialCapture.cs:79 | agrees with the session model's isRecording |
| SocialCapture.GetSocialCapture.IsVideoRecordererCheckDeep | Scripts/GetSocialCapture.cs:169-172 | true iff the store holds a frame |
| SocialCapture.GetSocialCapture.StartCapture | Scripts/GetSocialCapture.cs:95-109 | new state and outcome are those of CaptureModel.StartCapture; the recorder becomes the camera's only when Init ran and took it |
| SocialCapture.GetSocialCapture.StopCapture | Scripts/GetSocialCapture.cs:111-119 | result and new state are those of CaptureModel.StopCapture |
| SocialCapture.GetSocialCapture.ResumeCapture | Scripts/GetSocialCapture.cs:121-131 | new state is that of CaptureModel.ResumeCapture |
| SocialCapture.GetSocialCapture.CaptureFrame | Scripts/GetSocialCapture.cs:133-140 | outcome and new state are those of CaptureModel.CaptureFrame |
| SocialCapture.GetSocialCapture.GenerateCapture | Scripts/GetSocialCapture.cs:142-166 | delivery and new state are those of CaptureModel.GenerateCapture |
| SocialCapture.GetSocialCapture.OnGenerateComplete | Scripts/GetSocialCapture.cs:150-158 | runs only after a queued generation; delivered bytes and new state are those of CaptureModel.OnGenerateComplete |
| SocialCapture.GetSocialCapture.CleanAll | Scripts/GetSocialCapture.cs:174-188 | outcome and new state are those of CaptureModel.CleanAll |
| SocialCapture.GetSocialCapture.ChangeCamera | Scripts/GetSocialCapture.cs:190-225 | outcome and new state are those of CaptureModel.ChangeCamera; the recorder object becomes the camera's exactly when it was taken |
| SocialCapture.GetSocialCapture.Init | Scripts/GetSocialCapture.cs:231-238 | outcome and new state are those of CaptureModel.Init |
| SocialCapture.GetSocialCapture.InitSession | Scripts/GetSocialCapture.cs:272-279 | new state is that of CaptureModel.InitSession |
| SocialCapture.GetSocialCapture.CleanUp | Scripts/GetSocialCapture.cs:281-294 | outcome and new state are those of CaptureModel.CleanUp |
| Frames.FrameStore.Start | Scripts/GetSocialCapture.cs:278 | the store is empty and has the session's capacity |
| Frames.FrameStore.Clear | Scripts/GetSocialCapture.cs:182 | the store is empty |
| CapturePreview.Textures | Scripts/GetSocialCapturePreview.cs:87-94 | one texture per frame, in order, each a copy of its frame |
| CapturePreview.FrameIndex | Scripts/GetSocialCapturePreview.cs:153 | the shown index lies in [0, n) and equals the tick while the tick is below n |
| CapturePreview.GetSocialCapturePreview.constructor | Scripts/GetSocialCapturePreview.cs:14-34 | the defaults: playback rate 30, looping, no list, not playing, not initialized |
| CapturePreview.GetSocialCapturePreview.Play | Scripts/GetSocialCapturePreview.cs:43-54 | rebuilds the textures iff not initialized or forced (forced by default); always ends playing and initialized, even with no frames |
| CapturePreview.GetSocialCapturePreview.Stop | Scripts/GetSocialCapturePreview.cs:59-62 | playing is false; nothing else may change |
| CapturePreview.GetSocialCapturePreview.StopAndClearFrames | Scripts/GetSocialCapturePreview.cs:67-74 | not playing, not initialized, list empty (or still null), shown texture cleared when there is an image |
| CapturePreview.GetSocialCapturePreview.Init | Scripts/GetSocialCapturePreview.cs:80-102 | the list holds exactly the copies of the stored frames in store order; initialized; playing is cleared iff there are no frames |
| CapturePreview.GetSocialCapturePreview.ClearFrames | Scripts/GetSocialCapturePreview.cs:123-138 | a non-empty list becomes an empty, non-null list; a null or empty list stays as it was |
| CapturePreview.GetSocialCapturePreview.Update | Scripts/GetSocialCapturePreview.cs:145-159 | not playing or no frames: nothing changes; otherwise the shown texture is the copy of stored frame `tick mod n`, and playing stops iff that is the last frame and looping is off |

## Left out

- Unity engine surface is not modelled: `Awake`, `OnDestroy`, `Start`, `gameObject.SetActive`, `Camera.main`, `GetComponent`/`AddComponent`, `Texture2D.SetPixels32`/`Apply`, `Destroy` and `GC.Collect`. `ChangeCamera`, `Init` and `StartCapture` instead take the recorder the chosen camera yields (null when there is no camera).
- File-system I/O is not modelled: creating the result directory, deleting the file in `CleanUp`, and reading the file in the completion. The result directory and the file's bytes are parameters, and the file exists only as the string `resultFilePath`.
- The directory separator is fixed to `/`. On the host it is platform-dependent.
- The clock is not modelled. `DateTimeNow` is an opaque timestamp string supplied with each call that may open a session. Ids differ for any timestamps.
- The frame store's own code is not part of this model, and neither are the gif generator, the recorder and the main-thread executor. That covers frame admission, capacity and overflow policy, the encoding and the threads. `FrameStore.Start` is taken to empty the store and set its capacity. The completion is the separate method `OnGenerateComplete`, callable only after a generation queued one.
- Concurrency is not modelled: the generator holds a reference to the live frame list, and the preview reads the store while the recorder may push to it. `CaptureRuns.SavingFreezesSession` states that, while a gif is being saved and a session is open, the controller never changes the frames until a completion runs. After one of two queued completions has run, `CleanAll` may clear the list that the other generator still reads (`CaptureRuns.DoubleGenerateThenClean`).
- Floating-point values are not modelled: `resizeRatioFrame`, `_elapsedTime`, `_playbackStartTime`, `Time.time` and the near-zero test of the start time. The playback time product is the integer tick of `Update`.
- `capturedCamera` is not modelled as a field. It is the camera that `Init` and `ChangeCamera` resolve, falling back to `Camera.main`, and that lookup is the `cam` argument. No modelled operation reads `captureMode`, and only `Awake` reads `autoInit`.
- `totalRecords` is an unbounded counter. The 32-bit `int` of the source wraps after 2^31 sessions, which the model does not follow.
- Log output (`Debug.Log`, `LogWarning`, `LogError`) is not modelled. On the paths that only log, the model changes nothing.
- The GifReplay sample is not modelled. It only drives the public calls.
