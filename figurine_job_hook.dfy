/** The useFigurineJob hook: direct generation without the analysis step.
    It uploads an image, inserts a job that is approved and confirmed from
    the start, waits for generate-3d, and reads jobs back. Failures are
    reported by returning null (or an empty list), never by throwing. */
module FigurineJobHook {
  import opened Wrappers
  import opened Storage
  import opened Jobs
  import opened Invoke

  /** The row createJob inserts: approved and confirmed, so generation admits it. */
  function DirectRow(id: JobId, user: UserId, imageUrl: string, style: string, createdAt: int): (j: Job)
    ensures j.id == id && j.userId == user && j.originalImageUrl == imageUrl && j.style == style
    ensures j.status == Pending && j.validationStatus == Approved && j.userConfirmed && !j.creditsConsumed
  {
    NewRow(id, user, imageUrl, style, createdAt).(userConfirmed := true, validationStatus := Approved)
  }

  /** The outside world of one createJob call. */
  datatype CreateEnv = CreateEnv(
    user: Option<UserId>,
    newId: JobId,
    createdAt: int,
    insertOk: bool,
    serverWrites: seq<Patch>,     // what generate-3d wrote to the new row
    invoke: InvokeResult)

  /** Whether createJob inserts its row. */
  predicate Inserts(rows: map<JobId, Job>, env: CreateEnv) {
    env.user.Some? && env.insertOk && env.newId !in rows
  }

  /** The table after createJob: the inserted row as generate-3d left it, or
      the table unchanged when nothing was inserted. */
  function AfterCreate(rows: map<JobId, Job>, imageUrl: string, style: string, env: CreateEnv)
    : (after: map<JobId, Job>)
    ensures Inserts(rows, env) ==> after.Keys == rows.Keys + {env.newId}
    ensures Inserts(rows, env) ==> after[env.newId].id == env.newId && after[env.newId].userId == env.user.value
    ensures forall id :: id in rows && id != env.newId ==> id in after && after[id] == rows[id]
    ensures !Inserts(rows, env) ==> after == rows
  {
    if Inserts(rows, env) then
      var row := DirectRow(env.newId, env.user.value, imageUrl, style, env.createdAt);
      AfterWritesKeepsIdentity(rows[env.newId := row], env.newId, env.serverWrites);
      AfterWrites(rows[env.newId := row], env.newId, env.serverWrites)
    else rows
  }

  class FigurineJobs {
    var isUploading: bool
    var isGenerating: bool
    const db: JobTable
    /** Every value given to setIsUploading / setIsGenerating, in order. */
    ghost var uploadingLog: seq<bool>
    ghost var generatingLog: seq<bool>

    constructor (db: JobTable)
      ensures this.db == db && !isUploading && !isGenerating
      ensures uploadingLog == [] && generatingLog == []
    {
      this.db := db;
      isUploading := false;
      isGenerating := false;
      uploadingLog := [];
      generatingLog := [];
    }

    /** Stores the file under a fresh path and returns its public URL, or
        nothing when the upload fails. */
    method UploadImage(fileName: string, uuid: string, projectUrl: string, uploadOk: bool)
      returns (url: Option<string>)
      modifies this`isUploading, this`uploadingLog
      ensures url == if uploadOk then Some(PublicUrl(projectUrl, UploadPath(uuid, fileName))) else None
      ensures !isUploading && uploadingLog == old(uploadingLog) + [true, false]
    {
      isUploading := true;
      uploadingLog := uploadingLog + [true];
      var path := UploadPath(uuid, fileName);
      if !uploadOk {
        url := None;
      } else {
        url := Some(PublicUrl(projectUrl, path));
      }
      isUploading := false;
      uploadingLog := uploadingLog + [false];
    }

    /** Inserts the job and waits for generate-3d. It answers with the row as
        inserted (still "pending"), not as generation left it. */
    method CreateJob(imageUrl: string, style: string, env: CreateEnv) returns (job: Option<Job>)
      requires db.Valid()
      modifies this`isGenerating, this`generatingLog, db
      ensures db.Valid()
      ensures job.Some? <==> Inserts(old(db.rows), env) && env.invoke.InvokeOk?
      ensures job.Some? ==> job.value == DirectRow(env.newId, env.user.value, imageUrl, style, env.createdAt)
      ensures db.rows == AfterCreate(old(db.rows), imageUrl, style, env)
      ensures !isGenerating && generatingLog == old(generatingLog) + [true, false]
    {
      isGenerating := true;
      generatingLog := generatingLog + [true];
      job := None;
      if env.user.Some? {
        var inserted := db.Insert(DirectRow(env.newId, env.user.value, imageUrl, style, env.createdAt), env.insertOk);
        if inserted.Some? {
          RunWrites(db, env.newId, env.serverWrites);
          if env.invoke.InvokeOk? {
            job := inserted;
          }
        }
      }
      isGenerating := false;
      generatingLog := generatingLog + [false];
    }

    /** `.maybeSingle()`: the row, or nothing on an error or when no row matches. */
    method GetJob(jobId: JobId, ok: bool) returns (job: Option<Job>)
      requires db.Valid()
      ensures job.Some? <==> ok && jobId in db.rows
      ensures job.Some? ==> job.value == db.rows[jobId] && job.value.id == jobId
    {
      job := db.Select(jobId, ok);
    }

    /** Every job, newest first; an empty list when the query fails. */
    method GetAllJobs(ok: bool) returns (jobs: seq<Job>)
      requires db.Valid()
      ensures !ok ==> jobs == []
      ensures ok ==> NewestFirst(jobs) && Lists(jobs, db.rows)
    {
      jobs := db.SelectAllNewestFirst(ok);
    }
  }
}
