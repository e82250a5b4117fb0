/**
 * The capture session of `GetSocialCapture` as a value, and one step function
 * per operation: each returns what the operation reports and the session it
 * leaves behind. The imperative class in module SocialCapture is proved to
 * follow these functions; the lemmas below state what the operations promise.
 */
module CaptureModel {
  import opened Wrappers
  import opened Frames
  import opened SessionIds

  /** The states of the recorder attached to the captured camera. */
  datatype RecordingState = Recording | OnHold | RecordNow

  /** What the model keeps of a recorder: its state and its capture frame rate. */
  datatype RecorderView = RecorderView(state: RecordingState, captureFrameRate: int)

  /** The exceptions the operations raise. */
  datatype Failure =
    | SavingInProgress   // an operation that is refused while a gif is being saved
    | NullRecorder       // the recorder is dereferenced while there is none

  datatype Outcome = Ok | Fail(failure: Failure)

  /** What `GenerateCapture` does with the caller's result callback. */
  datatype Generated =
    | Immediate(bytes: seq<byte>)   // called at once (no frames stored)
    | Started                       // a generator runs; the callback comes with the completion
    | Threw(failure: Failure)

  /** The public configuration the operations read. */
  datatype Config = Config(captureFrameRate: int, maxCapturedFrames: int)

  /** The values of the clock (`DateTimeNow`) and of the result directory when a session opens. */
  datatype Env = Env(now: string, resultDir: string)

  /**
   * Everything the operations read or change: the flags, the session id and
   * result path (None for null), the recorder (None for null), the static
   * session counter, the shared frame store, and the number of generator
   * completions queued but not yet run.
   */
  datatype Session = Session(
    initialized: bool,
    isSaving: bool,
    isRecorderer: bool,
    isSaved: bool,
    captureId: Option<string>,
    resultFilePath: Option<string>,
    recorder: Option<RecorderView>,
    totalRecords: nat,
    storedFrames: seq<Frame>,
    capacity: int,
    pendingJobs: nat)

  /** A result paired with the session an operation leaves. */
  datatype Step<R> = Step(result: R, next: Session)

  /** `isRecording`: there is a recorder and it is not on hold. */
  predicate IsRecording(s: Session)
  {
    s.recorder.Some? && s.recorder.value.state != OnHold
  }

  function WithRecorderState(s: Session, st: RecordingState): Session
    requires s.recorder.Some?
  {
    s.(recorder := Some(s.recorder.value.(state := st)))
  }

  /** `InitSession`: a fresh id from the counter, its result path, and a restarted frame store. */
  function InitSession(s: Session, env: Env, cfg: Config): Session
  {
    var id := CaptureId(env.now, s.totalRecords);
    s.(captureId := Some(id),
       resultFilePath := Some(ResultPath(env.resultDir, id)),
       totalRecords := s.totalRecords + 1,
       storedFrames := [],
       capacity := cfg.maxCapturedFrames)
  }

  function StopCapture(s: Session): Step<bool>
  {
    if s.recorder.None? || s.recorder.value.state == OnHold then Step(false, s)
    else Step(true, WithRecorderState(s.(isRecorderer := true), OnHold))
  }

  /** Without a session or a recorder it only logs a warning. */
  function ResumeCapture(s: Session): Session
  {
    if s.captureId.None? || s.recorder.None? then s
    else WithRecorderState(s, Recording)
  }

  /** `CleanUp`: the result file is deleted (not modelled) and the path becomes empty. */
  function CleanUp(s: Session): Step<Outcome>
  {
    if s.isSaving then Step(Fail(SavingInProgress), s)
    else Step(Ok, s.(resultFilePath := Some("")))
  }

  function CleanAll(s: Session, alsoCleanFiles: bool): Step<Outcome>
  {
    if s.isSaving then Step(Fail(SavingInProgress), s)
    else
      var stopped := StopCapture(s).next;
      var cleared := stopped.(isRecorderer := false, isSaved := false, storedFrames := []);
      if alsoCleanFiles then CleanUp(cleared) else Step(Ok, cleared)
  }

  /**
   * `ChangeCamera`: `cam` is the recorder found on (or added to) the chosen
   * camera, None when there is no camera. Refused, with only a log line,
   * while recording.
   */
  function ChangeCamera(s: Session, cam: Option<RecorderView>, cfg: Config): Step<Outcome>
  {
    if IsRecording(s) then Step(Ok, s)
    else
      var cleaned := if s.recorder.Some? then CleanAll(s, false) else Step(Ok, s);
      if cleaned.result.Fail? || cam.None? then cleaned
      else Step(Ok, cleaned.next.(recorder := Some(cam.value.(captureFrameRate := cfg.captureFrameRate))))
  }

  function Init(s: Session, cam: Option<RecorderView>, cfg: Config): Step<Outcome>
  {
    if s.initialized then Step(Ok, s)
    else
      var changed := ChangeCamera(s, cam, cfg);
      if changed.result.Fail? then changed else Step(Ok, changed.next.(initialized := true))
  }

  function StartCapture(s: Session, cam: Option<RecorderView>, env: Env, cfg: Config): Step<Outcome>
  {
    var i := Init(s, cam, cfg);
    if i.result.Fail? then i
    else if i.next.isSaving then Step(Fail(SavingInProgress), i.next)
    else
      var t := InitSession(i.next, env, cfg).(isRecorderer := false, isSaved := false);
      if t.recorder.None? then Step(Fail(NullRecorder), t)
      else Step(Ok, WithRecorderState(t, Recording))
  }

  function CaptureFrame(s: Session, env: Env, cfg: Config): Step<Outcome>
  {
    var t := if s.captureId.None? then InitSession(s, env, cfg) else s;
    if t.recorder.None? then Step(Fail(NullRecorder), t)
    else Step(Ok, WithRecorderState(t, RecordNow))
  }

  function GenerateCapture(s: Session): Step<Generated>
  {
    var t := s.(isSaving := true);
    if t.recorder.None? then Step(Threw(NullRecorder), t)
    else
      var u := WithRecorderState(t, OnHold);
      if |u.storedFrames| > 0 then Step(Started, u.(pendingJobs := u.pendingJobs + 1))
      else Step(Immediate([]), u)
  }

  /**
   * The callback the generator queues on the main thread; `fileBytes` is the
   * content of the result file it wrote, handed to the caller's callback.
   */
  function OnGenerateComplete(s: Session, fileBytes: seq<byte>): Step<seq<byte>>
    requires s.pendingJobs > 0
  {
    Step(fileBytes, s.(isSaving := false, isSaved := true, pendingJobs := s.pendingJobs - 1))
  }

  // ---------------------------------------------------------------------------
  // What each operation promises

  /** Starting while saving fails and opens no session; at most `Init` has run. */
  lemma StartWhileSavingFails(s: Session, cam: Option<RecorderView>, env: Env, cfg: Config)
    requires s.isSaving
    ensures var r := StartCapture(s, cam, env, cfg);
      && r.result == Fail(SavingInProgress)
      && r.next == Init(s, cam, cfg).next
      && r.next.captureId == s.captureId && r.next.resultFilePath == s.resultFilePath
      && r.next.totalRecords == s.totalRecords && r.next.isSaved == s.isSaved
      && r.next.isSaving && r.next.storedFrames == s.storedFrames
      && (s.recorder.Some? ==> r.next.recorder == s.recorder)
      && (s.initialized ==> r.next == s)
  {
  }

  /** When a start succeeds, and what the new session looks like. */
  lemma StartCaptureSucceeds(s: Session, cam: Option<RecorderView>, env: Env, cfg: Config)
    ensures var r := StartCapture(s, cam, env, cfg);
      && (r.result == Ok <==> !s.isSaving && (s.recorder.Some? || (!s.initialized && cam.Some?)))
      && (r.result == Ok ==>
            && r.next.recorder.Some? && r.next.recorder.value.state == Recording
            && IsRecording(r.next)
            && !r.next.isRecorderer && !r.next.isSaved && r.next.initialized
            && r.next.totalRecords == s.totalRecords + 1
            && r.next.captureId == Some(CaptureId(env.now, s.totalRecords))
            && r.next.resultFilePath == Some(ResultPath(env.resultDir, CaptureId(env.now, s.totalRecords)))
            && r.next.storedFrames == [] && r.next.capacity == cfg.maxCapturedFrames)
  {
  }

  /** Stop reports whether it changed anything; a second stop in a row reports false. */
  lemma StopCaptureOnce(s: Session)
    ensures var r := StopCapture(s);
      && (r.result <==> IsRecording(s))
      && (!r.result ==> r.next == s)
      && (r.result ==> r.next == s.(isRecorderer := true, recorder := Some(s.recorder.value.(state := OnHold))))
      && !IsRecording(r.next)
      && !StopCapture(r.next).result
      && StopCapture(r.next).next == r.next
  {
  }

  /** Resume needs a session and a recorder; then it changes the recorder state only. */
  lemma ResumeCaptureEffect(s: Session)
    ensures var r := ResumeCapture(s);
      && ((s.captureId.None? || s.recorder.None?) ==> r == s)
      && (s.captureId.Some? && s.recorder.Some? ==>
            r.recorder == Some(s.recorder.value.(state := Recording)) && r.(recorder := s.recorder) == s)
  {
  }

  /** Capturing one frame opens a session only when there is none, then arms the recorder. */
  lemma CaptureFrameEffect(s: Session, env: Env, cfg: Config)
    ensures var r := CaptureFrame(s, env, cfg);
      && (r.result == Ok <==> s.recorder.Some?)
      && (r.result == Ok ==> r.next.recorder.value.state == RecordNow && IsRecording(r.next))
      && r.next.totalRecords == s.totalRecords + (if s.captureId.None? then 1 else 0)
      && (s.captureId.Some? ==> r.next.captureId == s.captureId && r.next.storedFrames == s.storedFrames)
      && r.next.captureId.Some?
      && r.next.isSaving == s.isSaving && r.next.isSaved == s.isSaved
  {
  }

  /** Generating always marks the session as saving and puts the recorder on hold. */
  lemma GenerateCaptureEffect(s: Session)
    ensures var r := GenerateCapture(s);
      && r.next.isSaving && r.next.isSaved == s.isSaved
      && (r.result.Threw? <==> s.recorder.None?)
      && (r.result.Threw? ==> r.result.failure == NullRecorder && r.next == s.(isSaving := true))
      && (s.recorder.Some? ==> r.next.recorder.value.state == OnHold && !IsRecording(r.next))
      && (s.recorder.Some? && |s.storedFrames| == 0 ==>
            r.result == Immediate([]) && r.next.pendingJobs == s.pendingJobs)
      && (s.recorder.Some? && |s.storedFrames| > 0 ==>
            r.result == Started && r.next.pendingJobs == s.pendingJobs + 1)
      && r.next.storedFrames == s.storedFrames && r.next.captureId == s.captureId
  {
  }

  /** A started generator's completion ends the save and hands over the file's bytes. */
  lemma GenerateThenComplete(s: Session, fileBytes: seq<byte>)
    requires GenerateCapture(s).result == Started
    ensures var g := GenerateCapture(s).next;
      && g.pendingJobs > 0
      && var c := OnGenerateComplete(g, fileBytes);
      && c.result == fileBytes && !c.next.isSaving && c.next.isSaved
      && c.next.pendingJobs == s.pendingJobs
  {
  }

  /**
   * With no frames stored, `GenerateCapture` delivers an empty result and
   * queues no completion, so `isSaving` stays true: starting and cleaning
   * are refused afterwards.
   */
  lemma EmptyGenerateKeepsSaving(s: Session, cam: Option<RecorderView>, env: Env, cfg: Config, alsoCleanFiles: bool)
    requires s.recorder.Some? && |s.storedFrames| == 0
    ensures var g := GenerateCapture(s);
      && g.result == Immediate([]) && g.next.isSaving && g.next.pendingJobs == s.pendingJobs
      && StartCapture(g.next, cam, env, cfg).result == Fail(SavingInProgress)
      && CleanAll(g.next, alsoCleanFiles) == Step(Fail(SavingInProgress), g.next)
  {
  }

  /** What cleaning leaves behind, and that it is refused while saving. */
  lemma CleanAllEffect(s: Session, alsoCleanFiles: bool)
    ensures var r := CleanAll(s, alsoCleanFiles);
      && (s.isSaving ==> r == Step(Fail(SavingInProgress), s))
      && (!s.isSaving ==>
            && r.result == Ok
            && !IsRecording(r.next) && !r.next.isRecorderer && !r.next.isSaved
            && r.next.storedFrames == []
            && r.next.resultFilePath == (if alsoCleanFiles then Some("") else s.resultFilePath)
            && r.next.captureId == s.captureId && r.next.totalRecords == s.totalRecords
            && (r.next.recorder.None? <==> s.recorder.None?))
  {
  }

  /** The camera cannot be changed while recording. */
  lemma ChangeCameraWhileRecording(s: Session, cam: Option<RecorderView>, cfg: Config)
    requires IsRecording(s)
    ensures ChangeCamera(s, cam, cfg) == Step(Ok, s)
  {
  }

  /** Changing camera when not recording cleans the old session (unless saving) and takes the new recorder. */
  lemma ChangeCameraEffect(s: Session, cam: Option<RecorderView>, cfg: Config)
    requires !IsRecording(s)
    ensures var r := ChangeCamera(s, cam, cfg);
      && (r.result.Fail? <==> s.recorder.Some? && s.isSaving)
      && (r.result.Fail? ==> r.next == s)
      && (r.result == Ok && cam.Some? ==>
            r.next.recorder == Some(cam.value.(captureFrameRate := cfg.captureFrameRate)))
      && (r.result == Ok && cam.None? ==> r.next.recorder == s.recorder)
      && (r.result == Ok && s.recorder.Some? ==> r.next.storedFrames == [] && !r.next.isSaved)
  {
  }

  /** Every id `InitSession` hands out carries the counter value it consumed. */
  lemma InitSessionId(s: Session, env: Env, cfg: Config)
    ensures var t := InitSession(s, env, cfg);
      && t.captureId.Some? && CounterOf(t.captureId.value) == s.totalRecords
      && t.totalRecords == s.totalRecords + 1
      && t.resultFilePath == Some(ResultPath(env.resultDir, t.captureId.value))
  {
    CounterOfCaptureId(env.now, s.totalRecords);
  }
}
