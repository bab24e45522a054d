/**
 * Per-session progress and error bookkeeping: the processing status of the
 * one active task and the session's bounded error log
 * (backend/src/models/session_data.py).
 */
module Progress {
  import opened Wrappers
  import opened Clock

  datatype ProcessingStatusType = Pending | Processing | Completed | Error

  const MaxErrorLog: nat := 50
  const ExposedErrorCount: nat := 10

  /** `max(0, min(100, progress))`. */
  function Clamp(progress: int): (r: int)
    ensures 0 <= r <= 100
    ensures 0 <= progress <= 100 ==> r == progress
    ensures progress < 0 ==> r == 0
    ensures progress > 100 ==> r == 100
  {
    Max(0, Min(100, progress))
  }

  /** `s[-n:]` for `n > 0`: the last `n` elements, or all of `s` when it is shorter. */
  function KeepLast<T>(s: seq<T>, n: nat): (r: seq<T>)
    ensures |r| == Min(|s|, n)
    ensures r == s[|s| - |r|..]
  {
    if |s| <= n then s else s[|s| - n..]
  }

  /** The entry `add_error` logs: `[<timestamp>] <message>`. */
  function FormatError(timestamp: string, message: string): (entry: string)
    ensures |entry| == |timestamp| + |message| + 3
    ensures entry[0] == '[' && entry[1..|timestamp| + 1] == timestamp
    ensures entry[|timestamp| + 1..|timestamp| + 3] == "] " && entry[|timestamp| + 3..] == message
  {
    "[" + timestamp + "] " + message
  }

  class ProcessingStatus {
    const taskId: string
    var status: ProcessingStatusType
    var progress: int
    var currentStep: string
    var startTime: int
    var estimatedCompletion: Option<int>
    var processingTimeSeconds: Option<int>
    var errorMessage: Option<string>

    ghost predicate Valid()
      reads this
    {
      0 <= progress <= 100
    }

    /** `ProcessingStatus.create_new`: `taskId` is the fresh `uuid4()`, `now` the start time. */
    constructor CreateNew(taskId: string, currentStep: string, now: int)
      ensures Valid()
      ensures this.taskId == taskId && status == Pending && progress == 0
      ensures this.currentStep == currentStep && startTime == now
      ensures estimatedCompletion == None && processingTimeSeconds == None && errorMessage == None
    {
      this.taskId := taskId;
      status := Pending;
      progress := 0;
      this.currentStep := currentStep;
      startTime := now;
      estimatedCompletion := None;
      processingTimeSeconds := None;
      errorMessage := None;
    }

    /**
     * `update_progress`: the stored progress is clamped; an input of 100 or
     * more completes the task and freezes its processing time, anything less
     * leaves the status alone.
     */
    method UpdateProgress(newProgress: int, step: string, now: int)
      requires Valid()
      modifies this
      ensures Valid()
      ensures progress == Clamp(newProgress) && currentStep == step
      ensures newProgress >= 100 ==> status == Completed && progress == 100
      ensures newProgress >= 100 ==> processingTimeSeconds == Some(ElapsedSeconds(startTime, now))
      ensures newProgress < 100 ==> status == old(status) && processingTimeSeconds == old(processingTimeSeconds)
      ensures startTime == old(startTime) && errorMessage == old(errorMessage)
      ensures estimatedCompletion == old(estimatedCompletion)
    {
      progress := Clamp(newProgress);
      currentStep := step;
      if newProgress >= 100 {
        status := Completed;
        processingTimeSeconds := Some(ElapsedSeconds(startTime, now));
      }
    }

    /** `mark_error`. */
    method MarkError(message: string, now: int)
      requires Valid()
      modifies this
      ensures Valid()
      ensures status == Error && errorMessage == Some(message)
      ensures processingTimeSeconds == Some(ElapsedSeconds(startTime, now))
      ensures progress == old(progress) && currentStep == old(currentStep) && startTime == old(startTime)
      ensures estimatedCompletion == old(estimatedCompletion)
    {
      status := Error;
      errorMessage := Some(message);
      processingTimeSeconds := Some(ElapsedSeconds(startTime, now));
    }

    /** `mark_processing`. */
    method MarkProcessing()
      requires Valid()
      modifies this
      ensures Valid()
      ensures status == Processing
      ensures progress == old(progress) && currentStep == old(currentStep) && startTime == old(startTime)
      ensures processingTimeSeconds == old(processingTimeSeconds) && errorMessage == old(errorMessage)
      ensures estimatedCompletion == old(estimatedCompletion)
    {
      status := Processing;
    }
  }

  /**
   * What forwarding progress to a task leaves alone: its start time, error
   * message and estimated completion.
   */
  twostate predicate TaskKeeps(t: ProcessingStatus)
    reads t
  {
    && t.startTime == old(t.startTime)
    && t.errorMessage == old(t.errorMessage)
    && t.estimatedCompletion == old(t.estimatedCompletion)
  }

  class SessionData {
    var currentStep: string
    var progressPercentage: int
    var errorLog: seq<string>
    var processingStatus: ProcessingStatus?

    ghost predicate Valid()
      reads this, processingStatus
    {
      && 0 <= progressPercentage <= 100
      && |errorLog| <= MaxErrorLog
      && (processingStatus != null ==> processingStatus.Valid())
    }

    /** The dataclass defaults. */
    constructor ()
      ensures Valid()
      ensures currentStep == "Session initialized" && progressPercentage == 0
      ensures errorLog == [] && processingStatus == null
    {
      currentStep := "Session initialized";
      progressPercentage := 0;
      errorLog := [];
      processingStatus := null;
    }

    /**
     * `add_error`: append the stamped entry, then keep only the 50 most recent
     * entries, oldest first.
     */
    method AddError(message: string, timestamp: string)
      requires Valid()
      modifies this
      ensures Valid()
      ensures errorLog == KeepLast(old(errorLog) + [FormatError(timestamp, message)], MaxErrorLog)
      ensures errorLog[|errorLog| - 1] == FormatError(timestamp, message)
      ensures currentStep == old(currentStep) && progressPercentage == old(progressPercentage)
      ensures processingStatus == old(processingStatus)
    {
      errorLog := errorLog + [FormatError(timestamp, message)];
      if |errorLog| > MaxErrorLog {
        errorLog := errorLog[|errorLog| - MaxErrorLog..];
      }
    }

    /**
     * `update_progress`: the session's own percentage is clamped, and the raw
     * value is forwarded to the active task's status when there is one.
     */
    method UpdateProgress(progress: int, step: string, now: int)
      requires Valid()
      modifies this, processingStatus
      ensures Valid()
      ensures progressPercentage == Clamp(progress) && currentStep == step
      ensures processingStatus == old(processingStatus) && errorLog == old(errorLog)
      ensures processingStatus != null ==> processingStatus.progress == Clamp(progress) && processingStatus.currentStep == step
      ensures processingStatus != null && progress >= 100 ==> processingStatus.status == Completed
      ensures processingStatus != null && progress >= 100 ==>
        processingStatus.processingTimeSeconds == Some(ElapsedSeconds(processingStatus.startTime, now))
      ensures processingStatus != null && progress < 100 ==>
        processingStatus.status == old(processingStatus.status) &&
        processingStatus.processingTimeSeconds == old(processingStatus.processingTimeSeconds)
      ensures processingStatus != null ==> TaskKeeps(processingStatus)
    {
      progressPercentage := Clamp(progress);
      currentStep := step;
      if processingStatus != null {
        processingStatus.UpdateProgress(progress, step, now);
      }
    }

    /**
     * `start_processing`: a fresh task record replaces any previous one (no
     * merging), is marked processing, and is the record returned.
     */
    method StartProcessing(initialStep: string, taskId: string, now: int) returns (status: ProcessingStatus)
      requires Valid()
      modifies this
      ensures Valid()
      ensures fresh(status) && processingStatus == status
      ensures status.taskId == taskId && status.status == Processing && status.progress == 0
      ensures status.currentStep == initialStep && status.startTime == now
      ensures status.processingTimeSeconds == None && status.errorMessage == None
      ensures status.estimatedCompletion == None
      ensures currentStep == initialStep && progressPercentage == 0 && errorLog == old(errorLog)
    {
      status := new ProcessingStatus.CreateNew(taskId, initialStep, now);
      status.MarkProcessing();
      processingStatus := status;
      currentStep := initialStep;
      progressPercentage := 0;
    }

    /** `complete_processing`. */
    method CompleteProcessing(now: int)
      requires Valid()
      modifies this, processingStatus
      ensures Valid()
      ensures progressPercentage == 100 && currentStep == "Completed"
      ensures processingStatus == old(processingStatus) && errorLog == old(errorLog)
      ensures processingStatus != null ==> processingStatus.status == Completed && processingStatus.progress == 100
      ensures processingStatus != null ==> processingStatus.currentStep == "Processing completed"
      ensures processingStatus != null ==>
        processingStatus.processingTimeSeconds == Some(ElapsedSeconds(processingStatus.startTime, now))
      ensures processingStatus != null ==> TaskKeeps(processingStatus)
    {
      if processingStatus != null {
        processingStatus.UpdateProgress(100, "Processing completed", now);
      }
      progressPercentage := 100;
      currentStep := "Completed";
    }

    /** `fail_processing`: fail the active task, log the message (capped), and show it as the step. */
    method FailProcessing(message: string, timestamp: string, now: int)
      requires Valid()
      modifies this, processingStatus
      ensures Valid()
      ensures processingStatus == old(processingStatus)
      ensures processingStatus != null ==> processingStatus.status == Error && processingStatus.errorMessage == Some(message)
      ensures processingStatus != null ==>
        processingStatus.processingTimeSeconds == Some(ElapsedSeconds(processingStatus.startTime, now))
      ensures processingStatus != null ==>
        processingStatus.progress == old(processingStatus.progress) &&
        processingStatus.currentStep == old(processingStatus.currentStep) &&
        processingStatus.startTime == old(processingStatus.startTime) &&
        processingStatus.estimatedCompletion == old(processingStatus.estimatedCompletion)
      ensures errorLog == KeepLast(old(errorLog) + [FormatError(timestamp, message)], MaxErrorLog)
      ensures currentStep == "Error: " + message && progressPercentage == old(progressPercentage)
    {
      if processingStatus != null {
        processingStatus.MarkError(message, now);
      }
      AddError(message, timestamp);
      currentStep := "Error: " + message;
    }

    /** The `error_log` entry of `to_dict`: only the 10 most recent errors. */
    function ExposedErrorLog(): (r: seq<string>)
      reads this
      ensures |r| == Min(|errorLog|, ExposedErrorCount)
      ensures r == errorLog[|errorLog| - |r|..]
    {
      KeepLast(errorLog, ExposedErrorCount)
    }
  }
}
