/**
 * The capture component `GetSocialCapture` as a class whose methods update
 * its fields in place. Each method is proved to leave the state that the
 * matching step function of module CaptureModel computes from the old state.
 */
module SocialCapture {
  import opened Wrappers
  import opened Frames
  import opened CaptureModel
  import SessionIds

  /** The recorder component on the captured camera; it reads `currentState` to decide what to capture. */
  class Recorder {
    var currentState: RecordingState
    var captureFrameRate: int

    constructor (state: RecordingState, rate: int)
      ensures currentState == state && captureFrameRate == rate
    {
      currentState := state;
      captureFrameRate := rate;
    }
  }

  /** The static session counter `totalRecords`, shared by every capture component. */
  class RecordCounter {
    var totalRecords: nat

    constructor ()
      ensures totalRecords == 0
    {
      totalRecords := 0;
    }
  }

  ghost function ViewOf(r: Recorder?): Option<RecorderView>
    reads r
  {
    if r == null then None else Some(RecorderView(r.currentState, r.captureFrameRate))
  }

  class GetSocialCapture {
    var captureFrameRate: int
    var maxCapturedFrames: int
    var playbackFrameRate: int
    var loopPlayback: bool

    var initialized: bool
    var isSaving: bool
    var isRecorderer: bool
    var isSaved: bool
    var resultFilePath: Option<string>
    var captureId: Option<string>
    var recorder: Recorder?

    const store: FrameStore
    const records: RecordCounter

    /** Completions the generator has queued for the main thread and that have not run yet. */
    ghost var pendingJobs: nat

    constructor (store: FrameStore, records: RecordCounter)
      ensures this.store == store && this.records == records
      ensures captureFrameRate == 15 && maxCapturedFrames == 50 && playbackFrameRate == 30 && loopPlayback
      ensures !initialized && !isSaving && !isRecorderer && !isSaved
      ensures resultFilePath == None && captureId == None && recorder == null && pendingJobs == 0
    {
      this.store := store;
      this.records := records;
      captureFrameRate, maxCapturedFrames, playbackFrameRate, loopPlayback := 15, 50, 30, true;
      initialized, isSaving, isRecorderer, isSaved := false, false, false, false;
      resultFilePath, captureId, recorder := None, None, null;
      pendingJobs := 0;
    }

    /** The session this object and the objects it refers to hold. */
    ghost function State(): Session
      reads this, recorder, store, records
    {
      Session(initialized, isSaving, isRecorderer, isSaved, captureId, resultFilePath,
              ViewOf(recorder), records.totalRecords, store.storedFrames, store.capacity, pendingJobs)
    }

    function Settings(): Config
      reads this
    {
      Config(captureFrameRate, maxCapturedFrames)
    }

    /** `isRecording`. */
    predicate IsRecording()
      reads this, recorder, store, records
      ensures IsRecording() == CaptureModel.IsRecording(State())
    {
      recorder != null && recorder.currentState != OnHold
    }

    /** Whether the frame store holds any frame. */
    function IsVideoRecordererCheckDeep(): (b: bool)
      reads this, store
      ensures b <==> store.storedFrames != []
    {
      store.Count() > 0
    }

    method StartCapture(cam: Recorder?, env: Env) returns (outcome: Outcome)
      modifies this`initialized, this`recorder, this`isRecorderer, this`isSaved, this`resultFilePath,
               this`captureId, recorder, store, records, cam
      ensures Step(outcome, State()) == CaptureModel.StartCapture(old(State()), old(ViewOf(cam)), env, Settings())
      ensures recorder == if !old(initialized) && cam != null && !old(IsRecording())
                             && !(old(recorder) != null && old(isSaving))
                          then cam else old(recorder)
      ensures cam != null && cam != recorder ==>
                cam.currentState == old(cam.currentState) && cam.captureFrameRate == old(cam.captureFrameRate)
      ensures old(recorder) != null && old(recorder) != recorder ==>
                old(recorder).currentState == old(recorder.currentState)
                && old(recorder).captureFrameRate == old(recorder.captureFrameRate)
    {
      if !initialized {
        outcome := Init(cam);
        if outcome.Fail? {
          return;
        }
      }
      if isSaving {
        return Fail(SavingInProgress);
      }
      InitSession(env);
      isRecorderer := false;
      isSaved := false;
      if recorder == null {
        return Fail(NullRecorder);
      }
      recorder.currentState := Recording;
      outcome := Ok;
    }

    method StopCapture() returns (stopped: bool)
      modifies this`isRecorderer, recorder
      ensures Step(stopped, State()) == CaptureModel.StopCapture(old(State()))
    {
      if recorder == null || recorder.currentState == OnHold {
        return false;
      }
      isRecorderer := true;
      recorder.currentState := OnHold;
      stopped := true;
    }

    method ResumeCapture()
      modifies recorder
      ensures State() == CaptureModel.ResumeCapture(old(State()))
    {
      if captureId == None || recorder == null {
        // logs a warning
      } else {
        recorder.currentState := Recording;
      }
    }

    method CaptureFrame(env: Env) returns (outcome: Outcome)
      modifies this`captureId, this`resultFilePath, records, store, recorder
      ensures Step(outcome, State()) == CaptureModel.CaptureFrame(old(State()), env, Settings())
    {
      if captureId == None {
        InitSession(env);
      }
      if recorder == null {
        return Fail(NullRecorder);
      }
      recorder.currentState := RecordNow;
      outcome := Ok;
    }

    /**
     * Starts the generator when frames are stored; its completion is the
     * separate method OnGenerateComplete.
     */
    method GenerateCapture() returns (generated: Generated)
      modifies this`isSaving, this`pendingJobs, recorder
      ensures Step(generated, State()) == CaptureModel.GenerateCapture(old(State()))
    {
      isSaving := true;
      if recorder == null {
        return Threw(NullRecorder);
      }
      recorder.currentState := OnHold;
      if store.Count() > 0 {
        pendingJobs := pendingJobs + 1;
        generated := Started;
      } else {
        generated := Immediate([]);
      }
    }

    /** The completion the generator queues; `fileBytes` is what reading the result file yields. */
    method OnGenerateComplete(fileBytes: seq<byte>) returns (delivered: seq<byte>)
      requires pendingJobs > 0
      modifies this`isSaving, this`isSaved, this`pendingJobs
      ensures Step(delivered, State()) == CaptureModel.OnGenerateComplete(old(State()), fileBytes)
    {
      isSaving := false;
      isSaved := true;
      pendingJobs := pendingJobs - 1;
      delivered := fileBytes;
    }

    method CleanAll(alsoCleanFiles: bool) returns (outcome: Outcome)
      modifies this`isRecorderer, this`isSaved, this`resultFilePath, recorder, store
      ensures Step(outcome, State()) == CaptureModel.CleanAll(old(State()), alsoCleanFiles)
    {
      if isSaving {
        return Fail(SavingInProgress);
      }
      var _ := StopCapture();
      isRecorderer := false;
      isSaved := false;
      store.Clear();
      if alsoCleanFiles {
        outcome := CleanUp();
      } else {
        outcome := Ok;
      }
    }

    /**
     * `cam` is the recorder of the camera to capture (found on it or added to
     * it), null when no camera is available.
     */
    method ChangeCamera(cam: Recorder?) returns (outcome: Outcome)
      modifies this`recorder, this`isRecorderer, this`isSaved, this`resultFilePath, recorder, store, cam
      ensures Step(outcome, State()) == CaptureModel.ChangeCamera(old(State()), old(ViewOf(cam)), Settings())
      ensures recorder == if outcome.Ok? && cam != null && !old(IsRecording()) then cam else old(recorder)
      ensures cam != null && cam != recorder ==>
                cam.currentState == old(cam.currentState) && cam.captureFrameRate == old(cam.captureFrameRate)
      ensures old(recorder) != null && old(recorder) != recorder ==>
                old(recorder).currentState == old(recorder.currentState)
                && old(recorder).captureFrameRate == old(recorder.captureFrameRate)
    {
      if !IsRecording() {
        if recorder != null {
          outcome := CleanAll(false);
          if outcome.Fail? {
            return;
          }
        }
        if cam == null {
          // logs "Camera is not set"
          return Ok;
        }
        recorder := cam;
        recorder.captureFrameRate := captureFrameRate;
        outcome := Ok;
      } else {
        // logs that the camera cannot change while recording
        outcome := Ok;
      }
    }

    method Init(cam: Recorder?) returns (outcome: Outcome)
      modifies this`initialized, this`recorder, this`isRecorderer, this`isSaved, this`resultFilePath,
               recorder, store, cam
      ensures Step(outcome, State()) == CaptureModel.Init(old(State()), old(ViewOf(cam)), Settings())
      ensures recorder == if !old(initialized) && outcome.Ok? && cam != null && !old(IsRecording())
                          then cam else old(recorder)
      ensures cam != null && cam != recorder ==>
                cam.currentState == old(cam.currentState) && cam.captureFrameRate == old(cam.captureFrameRate)
      ensures old(recorder) != null && old(recorder) != recorder ==>
                old(recorder).currentState == old(recorder.currentState)
                && old(recorder).captureFrameRate == old(recorder.captureFrameRate)
    {
      if !initialized {
        outcome := ChangeCamera(cam);
        if outcome.Fail? {
          return;
        }
        initialized := true;
      } else {
        outcome := Ok;
      }
    }

    method InitSession(env: Env)
      modifies this`captureId, this`resultFilePath, records, store
      ensures State() == CaptureModel.InitSession(old(State()), env, Settings())
    {
      var id := SessionIds.CaptureId(env.now, records.totalRecords);
      records.totalRecords := records.totalRecords + 1;
      captureId := Some(id);
      resultFilePath := Some(SessionIds.ResultPath(env.resultDir, id));
      store.Start(maxCapturedFrames);
    }

    method CleanUp() returns (outcome: Outcome)
      modifies this`resultFilePath
      ensures Step(outcome, State()) == CaptureModel.CleanUp(old(State()))
    {
      if isSaving {
        return Fail(SavingInProgress);
      }
      // the file at resultFilePath is deleted when it exists
      resultFilePath := Some("");
      outcome := Ok;
    }
  }
}
