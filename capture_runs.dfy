/**
 * Sequences of public calls on one capture component, and what holds along
 * any of them: session ids are never reused, and while a gif is being saved
 * no call can open a new session or touch the frames the generator reads.
 */
module CaptureRuns {
  import opened Wrappers
  import opened Frames
  import opened SessionIds
  import opened CaptureModel

  /** One call on the component, with the inputs the environment supplies to it. */
  datatype Op =
    | StartOp(cam: Option<RecorderView>, env: Env)
    | StopOp
    | ResumeOp
    | CaptureFrameOp(env: Env)
    | GenerateOp
    | CompleteOp(fileBytes: seq<byte>)   // the main thread runs the next queued completion
    | CleanAllOp(alsoCleanFiles: bool)
    | ChangeCameraOp(cam: Option<RecorderView>)
    | InitOp(cam: Option<RecorderView>)

  /** The session after one call (a completion runs only when one is queued). */
  function Apply(s: Session, op: Op, cfg: Config): Session
  {
    match op
    case StartOp(cam, env) => StartCapture(s, cam, env, cfg).next
    case StopOp => StopCapture(s).next
    case ResumeOp => ResumeCapture(s)
    case CaptureFrameOp(env) => CaptureFrame(s, env, cfg).next
    case GenerateOp => GenerateCapture(s).next
    case CompleteOp(bytes) => if s.pendingJobs > 0 then OnGenerateComplete(s, bytes).next else s
    case CleanAllOp(alsoCleanFiles) => CleanAll(s, alsoCleanFiles).next
    case ChangeCameraOp(cam) => ChangeCamera(s, cam, cfg).next
    case InitOp(cam) => Init(s, cam, cfg).next
  }

  function Run(s: Session, ops: seq<Op>, cfg: Config): Session
    decreases |ops|
  {
    if |ops| == 0 then s else Run(Apply(s, ops[0], cfg), ops[1..], cfg)
  }

  /** The ids of the sessions opened along a run, in order. */
  function Issued(s: Session, ops: seq<Op>, cfg: Config): seq<string>
    decreases |ops|
  {
    if |ops| == 0 then []
    else
      var t := Apply(s, ops[0], cfg);
      var here := if t.totalRecords != s.totalRecords && t.captureId.Some? then [t.captureId.value] else [];
      here + Issued(t, ops[1..], cfg)
  }

  /** One call opens at most one session, and that session's id carries the old counter. */
  lemma ApplyCounter(s: Session, op: Op, cfg: Config)
    ensures var t := Apply(s, op, cfg);
      || t.totalRecords == s.totalRecords
      || (t.totalRecords == s.totalRecords + 1 && t.captureId.Some?
          && CounterOf(t.captureId.value) == s.totalRecords)
  {
    match op
    case StartOp(cam, env) =>
      var i := Init(s, cam, cfg).next;
      assert i.totalRecords == s.totalRecords;
      InitSessionId(i, env, cfg);
    case CaptureFrameOp(env) =>
      InitSessionId(s, env, cfg);
    case _ =>
  }

  /** The i-th session opened along a run has counter value `totalRecords + i`. */
  lemma {:induction false} IssuedCounters(s: Session, ops: seq<Op>, cfg: Config)
    ensures Run(s, ops, cfg).totalRecords == s.totalRecords + |Issued(s, ops, cfg)|
    ensures forall i :: 0 <= i < |Issued(s, ops, cfg)| ==> CounterOf(Issued(s, ops, cfg)[i]) == s.totalRecords + i
    decreases |ops|
  {
    if |ops| > 0 {
      var t := Apply(s, ops[0], cfg);
      ApplyCounter(s, ops[0], cfg);
      IssuedCounters(t, ops[1..], cfg);
    }
  }

  /** No two sessions opened along a run share an id. */
  lemma IssuedDistinct(s: Session, ops: seq<Op>, cfg: Config)
    ensures var ids := Issued(s, ops, cfg);
      forall i, j :: 0 <= i < j < |ids| ==> ids[i] != ids[j]
  {
    IssuedCounters(s, ops, cfg);
  }

  /**
   * The current session's id was built from a counter value already consumed,
   * and a session always has a result path.
   */
  ghost predicate Inv(s: Session)
  {
    s.captureId.Some? ==> CounterOf(s.captureId.value) < s.totalRecords && s.resultFilePath.Some?
  }

  /** `Init` and `ChangeCamera` never touch the session id, the counter or the result path. */
  lemma InitKeepsSession(s: Session, cam: Option<RecorderView>, cfg: Config)
    ensures var i := Init(s, cam, cfg).next;
      i.captureId == s.captureId && i.totalRecords == s.totalRecords && i.resultFilePath == s.resultFilePath
  {
  }

  /** A session opened by `InitSession` satisfies the invariant, whatever came before. */
  lemma InitSessionEstablishesInv(s: Session, env: Env, cfg: Config)
    ensures Inv(InitSession(s, env, cfg))
  {
    InitSessionId(s, env, cfg);
  }

  lemma ApplyPreservesInv(s: Session, op: Op, cfg: Config)
    requires Inv(s)
    ensures Inv(Apply(s, op, cfg))
  {
    match op
    case StartOp(cam, env) =>
      var i := Init(s, cam, cfg);
      InitKeepsSession(s, cam, cfg);
      assert Inv(i.next);
      if i.result.Ok? && !i.next.isSaving {
        InitSessionEstablishesInv(i.next, env, cfg);
      }
    case CaptureFrameOp(env) =>
      InitSessionEstablishesInv(s, env, cfg);
    case ChangeCameraOp(cam) =>
    case InitOp(cam) =>
      InitKeepsSession(s, cam, cfg);
    case StopOp =>
    case ResumeOp =>
    case GenerateOp =>
    case CompleteOp(bytes) =>
    case CleanAllOp(alsoCleanFiles) =>
  }

  lemma {:induction false} RunPreservesInv(s: Session, ops: seq<Op>, cfg: Config)
    requires Inv(s)
    ensures Inv(Run(s, ops, cfg))
    decreases |ops|
  {
    if |ops| > 0 {
      ApplyPreservesInv(s, ops[0], cfg);
      RunPreservesInv(Apply(s, ops[0], cfg), ops[1..], cfg);
    }
  }

  /** Under the invariant, the next session opened never reuses the current id. */
  lemma NextSessionIsFresh(s: Session, env: Env, cfg: Config)
    requires Inv(s) && s.captureId.Some?
    ensures InitSession(s, env, cfg).captureId != s.captureId
  {
    InitSessionId(s, env, cfg);
  }

  /** What a single call keeps while a gif is being saved and a session is open. */
  lemma ApplyWhileSaving(s: Session, op: Op, cfg: Config)
    requires s.isSaving && s.captureId.Some? && !op.CompleteOp?
    ensures var t := Apply(s, op, cfg);
      && t.isSaving && t.captureId == s.captureId && t.resultFilePath == s.resultFilePath
      && t.totalRecords == s.totalRecords && t.storedFrames == s.storedFrames
      && t.capacity == s.capacity && t.pendingJobs >= s.pendingJobs
  {
  }

  /**
   * Until a completion runs, saving cannot be ended and no call opens a new
   * session, renames the result file or changes the stored frames.
   */
  lemma {:induction false} SavingFreezesSession(s: Session, ops: seq<Op>, cfg: Config)
    requires s.isSaving && s.captureId.Some?
    requires forall k :: 0 <= k < |ops| ==> !ops[k].CompleteOp?
    ensures var t := Run(s, ops, cfg);
      && t.isSaving && t.captureId == s.captureId && t.resultFilePath == s.resultFilePath
      && t.totalRecords == s.totalRecords && t.storedFrames == s.storedFrames
      && t.pendingJobs >= s.pendingJobs
    decreases |ops|
  {
    if |ops| > 0 {
      ApplyWhileSaving(s, ops[0], cfg);
      var rest := ops[1..];
      assert forall k :: 0 <= k < |rest| ==> !rest[k].CompleteOp? by {
        forall k | 0 <= k < |rest| ensures !rest[k].CompleteOp? {
          assert rest[k] == ops[k + 1];
        }
      }
      SavingFreezesSession(Apply(s, ops[0], cfg), rest, cfg);
    }
  }
  /**
   * `GenerateCapture` does not check `isSaving`: two generations queue two
   * completions, and once the first has run, `CleanAll` passes its guard and
   * clears the frames while the second generator is still pending.
   */
  lemma DoubleGenerateThenClean(s: Session, fileBytes: seq<byte>, cfg: Config)
    requires s.recorder.Some? && |s.storedFrames| > 0
    ensures var t := Run(s, [GenerateOp, GenerateOp, CompleteOp(fileBytes), CleanAllOp(false)], cfg);
      && t.pendingJobs == s.pendingJobs + 1 && t.storedFrames == [] && !t.isSaving
  {
    var ops := [GenerateOp, GenerateOp, CompleteOp(fileBytes), CleanAllOp(false)];
    var s1 := Apply(s, GenerateOp, cfg);
    var s2 := Apply(s1, GenerateOp, cfg);
    var s3 := Apply(s2, CompleteOp(fileBytes), cfg);
    var s4 := Apply(s3, CleanAllOp(false), cfg);
    assert s3.pendingJobs == s.pendingJobs + 1 && !s3.isSaving;
    assert ops[1..] == [GenerateOp, CompleteOp(fileBytes), CleanAllOp(false)];
    assert ops[1..][1..] == [CompleteOp(fileBytes), CleanAllOp(false)];
    assert ops[1..][1..][1..] == [CleanAllOp(false)];
    assert Run(s, ops, cfg) == Run(s1, ops[1..], cfg);
    assert Run(s1, ops[1..], cfg) == Run(s2, ops[1..][1..], cfg);
    assert Run(s2, ops[1..][1..], cfg) == Run(s3, ops[1..][1..][1..], cfg);
    assert Run(s3, [CleanAllOp(false)], cfg) == Run(s4, [], cfg);
    assert s4.pendingJobs == s.pendingJobs + 1 && s4.storedFrames == [] && !s4.isSaving;
  }
}
