/** The useImageAnalysis hook: the upload wizard's state (two busy flags and
    the job being worked on) and its four operations. Storage, auth and the
    edge functions are parameters: whether the upload succeeds, who is signed
    in, the id and timestamp the database gives a new row, the writes the
    invoked edge function makes to that row, and its error, if any. */
module ImageAnalysisHook {
  import opened Wrappers
  import opened Text
  import opened Storage
  import opened Jobs
  import opened Invoke

  /** `analysisError.message || "Analysis failed"`. */
  function InvokeErrorText(message: string): (t: string)
    ensures t != ""
    ensures message != "" ==> t == message
    ensures message == "" ==> t == "Analysis failed"
  {
    if message != "" then message else "Analysis failed"
  }

  /** The outside world of one uploadAndAnalyze call. */
  datatype UploadEnv = UploadEnv(
    uuid: string,                 // crypto.randomUUID()
    uploadOk: bool,
    projectUrl: string,
    user: Option<UserId>,         // auth.getUser()
    newId: JobId,                 // the id the database assigns
    createdAt: int,
    insertOk: bool,
    serverWrites: seq<Patch>,     // what analyze-image wrote to the new row
    invoke: InvokeResult,
    fetchOk: bool)

  function ImageUrl(fileName: string, env: UploadEnv): string {
    PublicUrl(env.projectUrl, UploadPath(env.uuid, fileName))
  }

  /** The row uploadAndAnalyze inserts. */
  function SubmittedRow(fileName: string, style: string, env: UploadEnv, user: UserId): Job {
    NewRow(env.newId, user, ImageUrl(fileName, env), style, env.createdAt)
  }

  /** Whether the call got as far as the analysis (the busy flags switch there). */
  predicate ReachesAnalysis(rows: map<JobId, Job>, env: UploadEnv) {
    env.uploadOk && env.user.Some? && env.insertOk && env.newId !in rows
  }

  /** The job returned (or the error thrown) and the table afterwards. */
  function UploadOutcome(rows: map<JobId, Job>, fileName: string, style: string, env: UploadEnv)
    : (r: (Result<Job, string>, map<JobId, Job>))
    ensures forall k :: k in rows ==> k in r.1 && r.1[k] == rows[k]
    ensures r.1.Keys == if ReachesAnalysis(rows, env) then rows.Keys + {env.newId} else rows.Keys
    ensures r.0.Ok? ==> ReachesAnalysis(rows, env) && r.0.value == r.1[env.newId]
  {
    if !env.uploadOk then (Err("Failed to upload image"), rows)
    else if env.user.None? then (Err("You must be logged in to create a job"), rows)
    else if !env.insertOk || env.newId in rows then (Err("Failed to create job"), rows)
    else
      var created := rows[env.newId := SubmittedRow(fileName, style, env, env.user.value)];
      var analysed := AfterWrites(created, env.newId, env.serverWrites);
      assert analysed.Keys == rows.Keys + {env.newId};
      assert forall k :: k in rows ==> k != env.newId && analysed[k] == created[k] == rows[k];
      if env.invoke.InvokeError? then (Err(InvokeErrorText(env.invoke.message)), analysed)
      else if !env.fetchOk then (Err("Failed to fetch job data"), analysed)
      else (Ok(analysed[env.newId]), analysed)
  }

  /** A job comes back only for a signed-in user whose upload and insert went
      through, and it is that user's row for that image and style. */
  lemma UploadedJobBelongsToUser(rows: map<JobId, Job>, fileName: string, style: string, env: UploadEnv)
    requires UploadOutcome(rows, fileName, style, env).0.Ok?
    ensures ReachesAnalysis(rows, env) && env.invoke.InvokeOk? && env.fetchOk
    ensures var job := UploadOutcome(rows, fileName, style, env).0.value;
      && job.id == env.newId && job.userId == env.user.value
      && job.originalImageUrl == ImageUrl(fileName, env) && job.style == style
      && AfterLastDot(job.originalImageUrl) == AfterLastDot(fileName)
  {
    var created := rows[env.newId := SubmittedRow(fileName, style, env, env.user.value)];
    AfterWritesKeepsIdentity(created, env.newId, env.serverWrites);
    PublicUrlKeepsExtension(env.projectUrl, env.uuid, fileName);
  }

  /** A failure before the insert leaves the table as it was. */
  lemma NoRowBeforeInsert(rows: map<JobId, Job>, fileName: string, style: string, env: UploadEnv)
    requires !ReachesAnalysis(rows, env)
    ensures UploadOutcome(rows, fileName, style, env).1 == rows
    ensures UploadOutcome(rows, fileName, style, env).0.Err?
  {
  }

  /** The job as inserted: pending on both columns, unconfirmed, no credits. */
  lemma InsertedRowIsPending(fileName: string, style: string, env: UploadEnv, user: UserId)
    ensures var j := SubmittedRow(fileName, style, env, user);
      j.status == Pending && j.validationStatus == Pending && !j.userConfirmed && !j.creditsConsumed
  {
  }

  /** The outside world of one addAdditionalImage call. */
  datatype AddImageEnv = AddImageEnv(uuid: string, uploadOk: bool, projectUrl: string, readOk: bool, updateOk: bool)

  /** `(currentJob?.additional_images) || []`: a failed read, a missing row or
      a null column all start the list afresh. */
  function CurrentImages(rows: map<JobId, Job>, jobId: JobId, readOk: bool): (imgs: seq<string>)
    ensures readOk && jobId in rows && rows[jobId].additionalImages.Some? ==>
              imgs == rows[jobId].additionalImages.value
    ensures !readOk ==> imgs == []
  {
    if readOk && jobId in rows && rows[jobId].additionalImages.Some? then rows[jobId].additionalImages.value
    else []
  }

  class ImageAnalysis {
    var isUploading: bool
    var isAnalyzing: bool
    var jobData: Option<Job>
    const db: JobTable
    /** Every value given to setIsUploading / setIsAnalyzing, in order. */
    ghost var uploadingLog: seq<bool>
    ghost var analyzingLog: seq<bool>

    constructor (db: JobTable)
      ensures this.db == db
      ensures !isUploading && !isAnalyzing && jobData.None?
      ensures uploadingLog == [] && analyzingLog == []
    {
      this.db := db;
      isUploading := false;
      isAnalyzing := false;
      jobData := None;
      uploadingLog := [];
      analyzingLog := [];
    }

    /** Uploads the image, inserts a pending job, has it analysed and reads it back. */
    method UploadAndAnalyze(fileName: string, style: string, env: UploadEnv) returns (r: Result<Job, string>)
      requires db.Valid()
      modifies this, db
      ensures db.Valid()
      ensures (r, db.rows) == UploadOutcome(old(db.rows), fileName, style, env)
      ensures jobData == (if r.Ok? then Some(r.value) else None)
      ensures !isUploading && !isAnalyzing
      // Uploading is on until the row exists; analysing is on from then until the end.
      ensures var reached := ReachesAnalysis(old(db.rows), env);
        && uploadingLog == old(uploadingLog) + [true] + (if reached then [false] else [])
                           + (if r.Err? then [false] else [])
        && analyzingLog == old(analyzingLog) + [false] + (if reached then [true] else []) + [false]
    {
      isUploading, isAnalyzing, jobData := true, false, None;
      uploadingLog, analyzingLog := uploadingLog + [true], analyzingLog + [false];
      var error: string;
      if !env.uploadOk {
        error := "Failed to upload image";
      } else if env.user.None? {
        error := "You must be logged in to create a job";
      } else {
        var imageUrl := PublicUrl(env.projectUrl, UploadPath(env.uuid, fileName));
        var job := db.Insert(NewRow(env.newId, env.user.value, imageUrl, style, env.createdAt), env.insertOk);
        if job.None? {
          error := "Failed to create job";
        } else {
          isUploading, isAnalyzing := false, true;
          uploadingLog, analyzingLog := uploadingLog + [false], analyzingLog + [true];
          RunWrites(db, env.newId, env.serverWrites);
          if env.invoke.InvokeError? {
            error := InvokeErrorText(env.invoke.message);
          } else {
            var updated := db.Select(env.newId, env.fetchOk);
            if updated.None? {
              error := "Failed to fetch job data";
            } else {
              jobData := updated;
              isAnalyzing := false;
              analyzingLog := analyzingLog + [false];
              return Ok(updated.value);
            }
          }
        }
      }
      isUploading, isAnalyzing := false, false;
      uploadingLog, analyzingLog := uploadingLog + [false], analyzingLog + [false];
      r := Err(error);
    }

    /** The user accepts a FALLBACK_MODEL job; the local copy follows only a
        successful write, whichever job it holds. */
    method ConfirmFallback(jobId: JobId, ok: bool) returns (confirmed: bool)
      requires db.Valid()
      modifies this, db
      ensures db.Valid()
      ensures confirmed == ok
      ensures db.rows == AfterUpdate(old(db.rows), jobId, Patch.ConfirmFallback, ok)
      ensures jobData == if ok && old(jobData).Some? then Some(ApplyPatch(old(jobData).value, Patch.ConfirmFallback))
                         else old(jobData)
      ensures unchanged(this`isUploading, this`isAnalyzing, this`uploadingLog, this`analyzingLog)
    {
      var failed := db.Update(jobId, Patch.ConfirmFallback, ok);
      if failed {
        return false;
      }
      if jobData.Some? {
        jobData := Some(jobData.value.(userConfirmed := true, validationStatus := Approved));
      }
      confirmed := true;
    }

    /** Uploads another angle, appends its URL to the job's list and approves
        the job; the local copy records the approval but not the image. */
    method AddAdditionalImage(jobId: JobId, fileName: string, env: AddImageEnv) returns (added: bool)
      requires db.Valid()
      modifies this, db
      ensures db.Valid()
      ensures added == (env.uploadOk && env.updateOk)
      ensures var url := PublicUrl(env.projectUrl, UploadPath(env.uuid, fileName));
        db.rows == if !env.uploadOk then old(db.rows)
                   else AfterUpdate(old(db.rows), jobId,
                                    SetAdditionalImages(CurrentImages(old(db.rows), jobId, env.readOk) + [url]),
                                    env.updateOk)
      ensures jobData == if added && old(jobData).Some? then Some(old(jobData).value.(validationStatus := Approved))
                         else old(jobData)
      ensures unchanged(this`isUploading, this`isAnalyzing, this`uploadingLog, this`analyzingLog)
    {
      if !env.uploadOk {
        return false;
      }
      var url := PublicUrl(env.projectUrl, UploadPath(env.uuid, fileName));
      var current := db.Select(jobId, env.readOk);
      var images := if current.Some? && current.value.additionalImages.Some?
                    then current.value.additionalImages.value else [];
      var failed := db.Update(jobId, SetAdditionalImages(images + [url]), env.updateOk);
      if failed {
        return false;
      }
      if jobData.Some? {
        jobData := Some(jobData.value.(validationStatus := Approved));
      }
      added := true;
    }

    /** Marks the job processing with credits consumed (the write's error is
        ignored) and invokes generate-3d. */
    method StartGeneration(jobId: JobId, selectOk: bool, updateOk: bool, serverWrites: seq<Patch>,
                           invoke: InvokeResult) returns (r: Result<(), string>)
      requires db.Valid()
      modifies db
      ensures db.Valid()
      ensures !(selectOk && jobId in old(db.rows)) ==> r == Err("Job not found") && db.rows == old(db.rows)
      ensures selectOk && jobId in old(db.rows) ==>
                && db.rows == AfterWrites(AfterUpdate(old(db.rows), jobId, Patch.StartGeneration, updateOk), jobId, serverWrites)
                && r == if invoke.InvokeError? then Err(invoke.message) else Ok(())
    {
      var job := db.Select(jobId, selectOk);
      if job.None? {
        return Err("Job not found");
      }
      var _ := db.Update(jobId, Patch.StartGeneration, updateOk);
      RunWrites(db, jobId, serverWrites);
      if invoke.InvokeError? {
        return Err(invoke.message);
      }
      r := Ok(());
    }

    method ResetAnalysis()
      modifies this
      ensures jobData.None? && !isUploading && !isAnalyzing
      ensures uploadingLog == old(uploadingLog) + [false] && analyzingLog == old(analyzingLog) + [false]
    {
      jobData, isUploading, isAnalyzing := None, false, false;
      uploadingLog, analyzingLog := uploadingLog + [false], analyzingLog + [false];
    }
  }

  /** A failed read before the update replaces the stored list with the new
      image alone. */
  lemma LostReadDropsEarlierImages(rows: map<JobId, Job>, jobId: JobId, url: string)
    requires jobId in rows
    ensures AfterUpdate(rows, jobId, SetAdditionalImages(CurrentImages(rows, jobId, false) + [url]), true)[jobId]
              .additionalImages == Some([url])
  {
    assert CurrentImages(rows, jobId, false) + [url] == [url];
  }

  /** With a good read, the new image is appended after the stored ones. */
  lemma AddedImageIsAppended(rows: map<JobId, Job>, jobId: JobId, url: string)
    requires jobId in rows && rows[jobId].additionalImages.Some?
    ensures var r := AfterUpdate(rows, jobId, SetAdditionalImages(CurrentImages(rows, jobId, true) + [url]), true)[jobId];
      && r.additionalImages == Some(rows[jobId].additionalImages.value + [url])
      && r.validationStatus == Approved
  {
  }
}
