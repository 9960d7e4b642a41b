/** The generate-3d edge function: checks the job may be generated, marks it
    processing, submits a Meshy image-to-3D task, polls it at most 60 times,
    and writes the result, or on any error marks the job failed (best effort)
    and answers 500. The Meshy calls are the `create` and `replies`
    parameters; the 5-second sleep between polls is not modelled. */
module Generate3D {
  import opened Wrappers
  import opened Text
  import opened Jobs

  /** STYLE_MAP with its fallback: `STYLE_MAP[style] || "realistic"`. */
  function StyleFor(style: string): (meshyStyle: string)
    ensures meshyStyle in {"realistic", "cartoon", "voxel"}
    ensures style == "realistic" ==> meshyStyle == "realistic"
    ensures (style == "anime" || style == "fortnite") ==> meshyStyle == "cartoon"
    ensures style == "lego" ==> meshyStyle == "voxel"
    ensures style !in {"realistic", "anime", "lego", "fortnite"} ==> meshyStyle == "realistic"
  {
    if style == "anime" || style == "fortnite" then "cartoon"
    else if style == "lego" then "voxel"
    else "realistic"
  }

  /** Two styles share a preset exactly when they map to the same Meshy style;
      anime and fortnite are indistinguishable to the provider. */
  lemma AnimeAndFortniteShareAPreset()
    ensures StyleFor("anime") == StyleFor("fortnite") != StyleFor("lego")
  {
  }

  /** The admission guard: approved by analysis, or confirmed by the user.
      The generation status is not consulted. */
  predicate Admitted(j: Job) {
    j.validationStatus == Approved || j.userConfirmed
  }

  /** The body of the task-creation request. */
  datatype MeshyRequest = MeshyRequest(imageUrl: string, enablePbr: bool, aiModel: string,
                                       topology: string, targetPolycount: int)

  /** The fixed preset every task is created with; the style plays no part. */
  function TaskRequest(imageUrl: string): (req: MeshyRequest)
    ensures req.imageUrl == imageUrl && req.topology == "quad" && req.targetPolycount == 30000
  {
    MeshyRequest(imageUrl, true, "meshy-4", "quad", 30000)
  }

  const MaxAttempts: nat := 60

  datatype MeshyTask = MeshyTask(
    status: string,
    modelUrls: Option<ModelUrls>,
    thumbnailUrl: Option<string>,
    textureUrls: Option<seq<string>>,
    taskError: Option<string>,          // task_error.message
    createdAt: Option<int>,
    finishedAt: Option<int>)

  /** One status check: a non-OK HTTP reply, or the task as Meshy reports it. */
  datatype StatusReply = StatusNotOk | StatusOk(task: MeshyTask)

  datatype PollOutcome = Succeeded(task: MeshyTask) | TaskFailed(message: string) | TimedOut

  /** A reply that ends the polling loop. */
  predicate IsTerminal(r: StatusReply) {
    r.StatusOk? && r.task.status in {"SUCCEEDED", "FAILED", "EXPIRED"}
  }

  /** A JavaScript string that is neither missing nor empty. */
  predicate Truthy(s: Option<string>) {
    s.Some? && s.value != ""
  }

  function TaskFailureMessage(t: MeshyTask): (m: string)
    ensures StartsWith(m, "Meshy task failed: ") && |m| > |"Meshy task failed: "|
    ensures Truthy(t.taskError) ==> EndsWith(m, t.taskError.value)
  {
    "Meshy task failed: " + (if Truthy(t.taskError) then t.taskError.value else "Unknown error")
  }

  /** The outcome of polling from check `i` on: the first terminal reply
      among the checks that remain, or a time-out. */
  function PollFrom(replies: nat -> StatusReply, i: nat): (o: PollOutcome)
    decreases MaxAttempts - i
    ensures o.Succeeded? ==> o.task.status == "SUCCEEDED"
    ensures o.TaskFailed? ==> StartsWith(o.message, "Meshy task failed: ")
  {
    if i >= MaxAttempts then TimedOut
    else match replies(i)
      case StatusNotOk => PollFrom(replies, i + 1)
      case StatusOk(t) =>
        if t.status == "SUCCEEDED" then Succeeded(t)
        else if t.status == "FAILED" || t.status == "EXPIRED" then TaskFailed(TaskFailureMessage(t))
        else PollFrom(replies, i + 1)
  }

  /** The number of status checks made from check `i` on. */
  function ChecksFrom(replies: nat -> StatusReply, i: nat): (n: nat)
    decreases MaxAttempts - i
    ensures i <= MaxAttempts ==> n <= MaxAttempts - i
    ensures i <= MaxAttempts && PollFrom(replies, i).TimedOut? ==> n == MaxAttempts - i
  {
    if i >= MaxAttempts then 0
    else if IsTerminal(replies(i)) then 1
    else 1 + ChecksFrom(replies, i + 1)
  }

  /** One check that does not end the loop hands over to the next one. */
  lemma PollStep(replies: nat -> StatusReply, i: nat)
    requires i < MaxAttempts && !IsTerminal(replies(i))
    ensures PollFrom(replies, i) == PollFrom(replies, i + 1)
    ensures ChecksFrom(replies, i) == 1 + ChecksFrom(replies, i + 1)
  {
  }

  /** The polling loop: at most 60 checks; a non-OK reply uses up a check;
      SUCCEEDED ends the loop; FAILED or EXPIRED end it with the task's error. */
  method Poll(replies: nat -> StatusReply) returns (outcome: PollOutcome, checks: nat)
    ensures outcome == PollFrom(replies, 0)
    ensures checks == ChecksFrom(replies, 0) && checks <= MaxAttempts
    ensures outcome.TimedOut? ==> checks == MaxAttempts
  {
    var taskComplete := false;
    var taskResult: Option<MeshyTask> := None;
    var attempts: nat := 0;
    while !taskComplete && attempts < MaxAttempts
      invariant attempts <= MaxAttempts
      invariant taskComplete ==>
                  taskResult.Some? && PollFrom(replies, 0) == Succeeded(taskResult.value)
                  && ChecksFrom(replies, 0) == attempts
      invariant !taskComplete ==>
                  PollFrom(replies, 0) == PollFrom(replies, attempts)
                  && ChecksFrom(replies, 0) == attempts + ChecksFrom(replies, attempts)
      decreases MaxAttempts - attempts, !taskComplete
    {
      var reply := replies(attempts);
      if reply.StatusOk? && reply.task.status == "SUCCEEDED" {
        taskResult := Some(reply.task);
        taskComplete := true;
      } else if reply.StatusOk? && (reply.task.status == "FAILED" || reply.task.status == "EXPIRED") {
        return TaskFailed(TaskFailureMessage(reply.task)), attempts + 1;
      } else {
        PollStep(replies, attempts);
      }
      attempts := attempts + 1;
    }
    if !taskComplete {
      return TimedOut, attempts;
    }
    return Succeeded(taskResult.value), attempts;
  }

  /** Polling times out exactly when none of the 60 checks sees a terminal reply. */
  lemma {:induction false} TimedOutIffNoTerminalReply(replies: nat -> StatusReply, i: nat)
    requires i <= MaxAttempts
    ensures PollFrom(replies, i).TimedOut? <==>
              forall k :: i <= k < MaxAttempts ==> !IsTerminal(replies(k))
    decreases MaxAttempts - i
  {
    if i < MaxAttempts {
      TimedOutIffNoTerminalReply(replies, i + 1);
    }
  }

  /** A success is the first terminal reply, and it is a SUCCEEDED one. */
  lemma {:induction false} SucceededIsFirstTerminal(replies: nat -> StatusReply, i: nat)
    requires PollFrom(replies, i).Succeeded?
    ensures exists k :: i <= k < MaxAttempts && replies(k) == StatusOk(PollFrom(replies, i).task)
                        && forall m :: i <= m < k ==> !IsTerminal(replies(m))
    decreases MaxAttempts - i
  {
    if replies(i).StatusOk? && replies(i).task.status == "SUCCEEDED" {
      assert replies(i) == StatusOk(PollFrom(replies, i).task);
    } else {
      SucceededIsFirstTerminal(replies, i + 1);
      var k :| i + 1 <= k < MaxAttempts && replies(k) == StatusOk(PollFrom(replies, i + 1).task)
                && forall m :: i + 1 <= m < k ==> !IsTerminal(replies(m));
      assert forall m :: i <= m < k ==> !IsTerminal(replies(m));
    }
  }

  /** What the Meshy calls produced, once the job is marked processing:
      the task id and the finished task, or the error thrown. */
  datatype CreateReply = Created(taskId: string) | CreateHttpError(code: nat, text: string)

  function ProviderResult(create: CreateReply, replies: nat -> StatusReply): (r: Result<(string, MeshyTask), string>)
    ensures r.Ok? ==> create.Created? && r.value.0 == create.taskId && r.value.1.status == "SUCCEEDED"
    ensures create.Created? && PollFrom(replies, 0).TimedOut? ==> r == Err("Meshy task timed out")
  {
    match create
    case CreateHttpError(code, text) => Err("Meshy API error: " + NatToString(code) + " - " + text)
    case Created(taskId) =>
      match PollFrom(replies, 0)
      case Succeeded(t) => Ok((taskId, t))
      case TaskFailed(m) => Err(m)
      case TimedOut => Err("Meshy task timed out")
  }

  /** The stored model URL: glb, else obj, else null (an empty string counts as missing). */
  function StoredModelUrl(t: MeshyTask): (u: Option<string>)
    ensures u.Some? ==> u.value != "" && t.modelUrls.Some?
                        && (u == t.modelUrls.value.glb || u == t.modelUrls.value.obj)
    ensures t.modelUrls.Some? && Truthy(t.modelUrls.value.glb) ==> u == t.modelUrls.value.glb
    ensures u.None? ==> t.modelUrls.None? || (!Truthy(t.modelUrls.value.glb) && !Truthy(t.modelUrls.value.obj))
  {
    if t.modelUrls.Some? && Truthy(t.modelUrls.value.glb) then t.modelUrls.value.glb
    else if t.modelUrls.Some? && Truthy(t.modelUrls.value.obj) then t.modelUrls.value.obj
    else None
  }

  /** The model URL in the success response: glb only, as the task gave it. */
  function ResponseModelUrl(t: MeshyTask): (u: Option<string>)
    ensures u.Some? && u.value != "" ==> StoredModelUrl(t) == u
    ensures StoredModelUrl(t).None? ==> u.None? || u.value == ""
  {
    if t.modelUrls.Some? then t.modelUrls.value.glb else None
  }

  /** The response can report no model while the row stores the obj file. */
  lemma ResponseOmitsObjFallback(t: MeshyTask, obj: string)
    requires obj != "" && t.modelUrls == Some(ModelUrls(None, Some(obj)))
    ensures StoredModelUrl(t) == Some(obj) && ResponseModelUrl(t).None?
  {
  }

  function CompletionPatch(taskId: string, t: MeshyTask): (p: Patch)
    ensures p.MarkCompleted? && p.modelUrl == StoredModelUrl(t)
    ensures p.previewUrl.Some? <==> Truthy(t.thumbnailUrl)
    ensures p.previewUrl.Some? ==> p.previewUrl == t.thumbnailUrl
  {
    MarkCompleted(StoredModelUrl(t), if Truthy(t.thumbnailUrl) then t.thumbnailUrl else None,
                  GenerationReport(taskId, t.modelUrls, t.textureUrls, t.createdAt, t.finishedAt))
  }

  const SuccessMessage: string := "3D model generated successfully with Meshy.ai"

  datatype GenerateResponse =
    | Generated(jobId: JobId, modelUrl: Option<string>, previewUrl: Option<string>, message: string)
    | GenerateFailed(error: string)

  function HttpStatus(r: GenerateResponse): int {
    if r.Generated? then 200 else 500
  }

  /** The outside world of one request: the API key, whether each write is
      accepted, the provider's replies, and whether the failure write in the
      catch block reaches the database (it re-reads the request body). */
  datatype GenerateEnv = GenerateEnv(
    hasMeshyKey: bool,
    processingWriteOk: bool,
    create: CreateReply,
    replies: nat -> StatusReply,
    completeWriteOk: bool,
    failureWriteLands: bool)

  /** One run of the handler: its response, the table afterwards, and the
      task request sent to Meshy, if any. */
  datatype Run = Run(response: GenerateResponse, rows: map<JobId, Job>, sent: Option<MeshyRequest>)

  /** The try block: a success, or the error it throws with the table as it was then. */
  function TryGenerate(rows: map<JobId, Job>, jobId: JobId, imageUrl: string, env: GenerateEnv): (r: Run)
    ensures r.rows.Keys == rows.Keys
    ensures forall k :: k in rows && k != jobId ==> r.rows[k] == rows[k]
    ensures r.sent.Some? ==> jobId in rows && Admitted(rows[jobId]) && r.sent == Some(TaskRequest(imageUrl))
  {
    if !env.hasMeshyKey then Run(GenerateFailed("MESHY_API_KEY is not configured"), rows, None)
    else if jobId !in rows then Run(GenerateFailed("Job not found"), rows, None)
    else if !Admitted(rows[jobId]) then Run(GenerateFailed("Job must be approved before generation"), rows, None)
    else if !env.processingWriteOk then Run(GenerateFailed("Failed to update job status"), rows, None)
    else
      var processing := AfterUpdate(rows, jobId, MarkProcessing, true);
      var sent := Some(TaskRequest(imageUrl));
      match ProviderResult(env.create, env.replies)
      case Err(msg) => Run(GenerateFailed(msg), processing, sent)
      case Ok((taskId, t)) =>
        if !env.completeWriteOk then Run(GenerateFailed("Failed to complete job"), processing, sent)
        else Run(Generated(jobId, ResponseModelUrl(t), t.thumbnailUrl, SuccessMessage),
                 AfterUpdate(processing, jobId, CompletionPatch(taskId, t), true), sent)
  }

  /** The whole handler: the try block, then the catch block's best-effort
      failure write. */
  function GenerateRun(rows: map<JobId, Job>, jobId: JobId, imageUrl: string, env: GenerateEnv): (r: Run)
    ensures r.rows.Keys == rows.Keys
    ensures forall k :: k in rows && k != jobId ==> r.rows[k] == rows[k]
    ensures r.sent.Some? ==> jobId in rows && Admitted(rows[jobId]) && r.sent == Some(TaskRequest(imageUrl))
  {
    var attempt := TryGenerate(rows, jobId, imageUrl, env);
    if attempt.response.Generated? then attempt
    else
      var msg := attempt.response.error;
      var rows' := if env.failureWriteLands && jobId != ""
                   then AfterUpdate(attempt.rows, jobId, MarkFailed(msg), true) else attempt.rows;
      Run(attempt.response, rows', attempt.sent)
  }

  /** Only an admitted job is ever generated, and a success leaves it
      completed with the stored URLs, credits still flagged as consumed. */
  lemma SuccessfulRun(rows: map<JobId, Job>, jobId: JobId, imageUrl: string, env: GenerateEnv)
    requires GenerateRun(rows, jobId, imageUrl, env).response.Generated?
    ensures jobId in rows && Admitted(rows[jobId])
    ensures var run := GenerateRun(rows, jobId, imageUrl, env);
      && ProviderResult(env.create, env.replies).Ok?
      && var t := ProviderResult(env.create, env.replies).value.1;
      && run.rows[jobId].status == Completed && run.rows[jobId].validationStatus == Completed
      && run.rows[jobId].modelUrl == StoredModelUrl(t)
      && run.rows[jobId].creditsConsumed
      && run.response.modelUrl == ResponseModelUrl(t)
      && run.sent == Some(TaskRequest(imageUrl))
  {
  }

  /** A job that is neither approved nor confirmed is refused before anything
      is written or sent; only the catch block's failure write may touch it. */
  lemma RefusedBeforeAnyMutation(rows: map<JobId, Job>, jobId: JobId, imageUrl: string, env: GenerateEnv)
    requires env.hasMeshyKey && jobId in rows && !Admitted(rows[jobId])
    ensures var run := GenerateRun(rows, jobId, imageUrl, env);
      && run.response == GenerateFailed("Job must be approved before generation")
      && run.sent.None?
      && run.rows == if env.failureWriteLands && jobId != ""
                     then AfterUpdate(rows, jobId, MarkFailed(run.response.error), true) else rows
  {
  }

  /** No provider call is made unless the job was admitted and marked processing. */
  lemma NoTaskWithoutProcessingWrite(rows: map<JobId, Job>, jobId: JobId, imageUrl: string, env: GenerateEnv)
    requires GenerateRun(rows, jobId, imageUrl, env).sent.Some?
    ensures env.hasMeshyKey && env.processingWriteOk && jobId in rows && Admitted(rows[jobId])
    ensures GenerateRun(rows, jobId, imageUrl, env).sent == Some(TaskRequest(imageUrl))
  {
  }

  /** When the failure write lands, a failed run leaves the job failed with
      the error text and the credit flag cleared. */
  lemma FailedRunRow(rows: map<JobId, Job>, jobId: JobId, imageUrl: string, env: GenerateEnv)
    requires GenerateRun(rows, jobId, imageUrl, env).response.GenerateFailed?
    requires env.failureWriteLands && jobId != "" && jobId in rows
    ensures var run := GenerateRun(rows, jobId, imageUrl, env);
      && run.rows[jobId].status == Failed && run.rows[jobId].validationStatus == Failed
      && run.rows[jobId].errorMessage == Some(run.response.error)
      && !run.rows[jobId].creditsConsumed
  {
  }

  /** Sixty checks without a terminal reply fail the job with a time-out. */
  lemma TimeOutFailsTheRun(rows: map<JobId, Job>, jobId: JobId, imageUrl: string, env: GenerateEnv)
    requires env.hasMeshyKey && jobId in rows && Admitted(rows[jobId]) && env.processingWriteOk
    requires env.create.Created?
    requires forall k :: 0 <= k < MaxAttempts ==> !IsTerminal(env.replies(k))
    ensures GenerateRun(rows, jobId, imageUrl, env).response == GenerateFailed("Meshy task timed out")
  {
    TimedOutIffNoTerminalReply(env.replies, 0);
  }

  /** The try block, step by step. */
  method TryBlock(db: JobTable, jobId: JobId, imageUrl: string, style: string, env: GenerateEnv)
    returns (response: GenerateResponse, sent: Option<MeshyRequest>)
    requires db.Valid()
    modifies db
    ensures db.Valid()
    ensures Run(response, db.rows, sent) == TryGenerate(old(db.rows), jobId, imageUrl, env)
  {
    sent := None;
    if !env.hasMeshyKey {
      return GenerateFailed("MESHY_API_KEY is not configured"), sent;
    }
    var job := db.Select(jobId, true);
    if job.None? {
      return GenerateFailed("Job not found"), sent;
    }
    if job.value.validationStatus != Approved && !job.value.userConfirmed {
      return GenerateFailed("Job must be approved before generation"), sent;
    }
    var failed := db.Update(jobId, MarkProcessing, env.processingWriteOk);
    if failed {
      return GenerateFailed("Failed to update job status"), sent;
    }
    var meshyStyle := StyleFor(style);  // computed and never sent
    sent := Some(TaskRequest(imageUrl));
    var taskId: string;
    match env.create {
      case CreateHttpError(code, text) =>
        return GenerateFailed("Meshy API error: " + NatToString(code) + " - " + text), sent;
      case Created(id) =>
        taskId := id;
    }
    var outcome, _ := Poll(env.replies);
    var task: MeshyTask;
    match outcome {
      case TaskFailed(msg) =>
        return GenerateFailed(msg), sent;
      case TimedOut =>
        return GenerateFailed("Meshy task timed out"), sent;
      case Succeeded(t) =>
        task := t;
    }
    failed := db.Update(jobId, CompletionPatch(taskId, task), env.completeWriteOk);
    if failed {
      return GenerateFailed("Failed to complete job"), sent;
    }
    response := Generated(jobId, ResponseModelUrl(task), task.thumbnailUrl, SuccessMessage);
  }

  /** The handler: the try block, and on an error the best-effort failure write. */
  method HandleGenerate3D(db: JobTable, jobId: JobId, imageUrl: string, style: string, env: GenerateEnv)
    returns (response: GenerateResponse, sent: Option<MeshyRequest>)
    requires db.Valid()
    modifies db
    ensures db.Valid()
    ensures Run(response, db.rows, sent) == GenerateRun(old(db.rows), jobId, imageUrl, env)
  {
    response, sent := TryBlock(db, jobId, imageUrl, style, env);
    if response.GenerateFailed? && env.failureWriteLands && jobId != "" {
      var _ := db.Update(jobId, MarkFailed(response.error), true);
    }
  }
}
