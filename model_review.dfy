/** The model review page: loads one job, shows it as generating, ready for
    review or failed, lets the user accept the model or reject it for a
    5-credit refund, and polls while the job is processing. */
module ModelReview {
  import opened Wrappers
  import opened Jobs

  /** `status === "processing" || status === "pending"`. */
  predicate IsProcessing(j: Job) {
    j.status == Processing || j.status == Pending
  }

  predicate IsFailed(j: Job) {
    j.status == Failed
  }

  /** `status === "completed" && model_url`: an empty URL is not ready. */
  predicate IsReady(j: Job) {
    j.status == Completed && j.modelUrl.Some? && j.modelUrl.value != ""
  }

  /** What the page shows for a loaded job. `Stuck` is the "issue" text with
      no action at all: a completed job without a model, or a job already
      approved, rejected or still in analysis. */
  datatype View = Generating | Reviewable | FailedView | Stuck

  function ViewFor(j: Job): (v: View)
    ensures v == Generating <==> IsProcessing(j)
    ensures v == Reviewable <==> IsReady(j)
    ensures v == FailedView <==> IsFailed(j)
    ensures v == Stuck <==> !IsProcessing(j) && !IsReady(j) && !IsFailed(j)
  {
    if IsProcessing(j) then Generating
    else if IsReady(j) then Reviewable
    else if IsFailed(j) then FailedView
    else Stuck
  }

  /** The accept and reject buttons are offered exactly for a ready job. */
  predicate OffersReview(j: Job) {
    ViewFor(j) == Reviewable
  }

  /** A reviewed job is no longer offered for review. */
  lemma ReviewedJobsAreNotReviewable(j: Job)
    ensures !OffersReview(ApplyPatch(j, AcceptModel))
    ensures !OffersReview(ApplyPatch(j, RejectModel))
    ensures ViewFor(ApplyPatch(j, AcceptModel)) == Stuck && ViewFor(ApplyPatch(j, RejectModel)) == Stuck
  {
  }

  /** One polling tick: `seen` is the job the interval callback reads, `shown`
      the job on screen, `fetched` the row a fetch returns. The shown job is
      replaced only when the callback saw it processing and the fetched row
      has left "processing". */
  function Tick(seen: Option<Job>, shown: Option<Job>, fetched: Option<Job>): (next: Option<Job>)
    ensures next == shown || (next == fetched && fetched.Some? && fetched.value.status != Processing)
    ensures next != shown ==> seen.Some? && seen.value.status == Processing
  {
    if seen.Some? && seen.value.status == Processing && fetched.Some? && fetched.value.status != Processing
    then fetched else shown
  }

  /** The tick as written: the callback was created on mount, when `job` was
      still null, and the effect is not re-run when `job` changes, so every
      tick reads null. */
  function TickAsWritten(shown: Option<Job>, fetched: Option<Job>): (next: Option<Job>)
    ensures next == shown
  {
    Tick(None, shown, fetched)
  }

  /** As written, polling never changes the job on screen. */
  lemma PollingNeverRefreshes(shown: Option<Job>, fetched: Option<Job>)
    ensures TickAsWritten(shown, fetched) == shown
  {
  }

  /** The tick as intended: the callback reads the job on screen. */
  function TickCorrected(shown: Option<Job>, fetched: Option<Job>): (next: Option<Job>)
    ensures next != shown ==> shown.Some? && shown.value.status == Processing
                              && next == fetched && fetched.Some? && fetched.value.status != Processing
  {
    Tick(shown, shown, fetched)
  }

  /** Intended: a job shown as processing is replaced by the finished row. */
  lemma CorrectedPollPicksUpCompletion(shown: Job, fetched: Job)
    requires shown.status == Processing && fetched.status != Processing
    ensures TickCorrected(Some(shown), Some(fetched)) == Some(fetched)
  {
  }

  /** The two ticks part ways on a processing job whose row has completed:
      as written the page keeps showing "generating". */
  lemma StaleClosureKeepsProcessing(shown: Job, fetched: Job)
    requires shown.status == Processing && fetched.status == Completed
    ensures TickAsWritten(Some(shown), Some(fetched)) == Some(shown)
    ensures TickCorrected(Some(shown), Some(fetched)) == Some(fetched)
    ensures ViewFor(shown) == Generating && ViewFor(fetched) != Generating
  {
  }

  /** A route parameter the page accepts: present and not empty. */
  predicate IsRouteId(jobId: Option<JobId>) {
    jobId.Some? && jobId.value != ""
  }

  class ReviewPage {
    var job: Option<Job>
    var isLoading: bool
    var isSubmitting: bool
    /** The last navigate() target, if any. */
    var navigatedTo: Option<string>
    /** Every value given to setIsSubmitting, in order. */
    ghost var submittingLog: seq<bool>
    const db: JobTable
    const ledger: Ledger
    const user: Option<UserId>

    constructor (db: JobTable, ledger: Ledger, user: Option<UserId>)
      ensures this.db == db && this.ledger == ledger && this.user == user
      ensures job.None? && isLoading && !isSubmitting && navigatedTo.None? && submittingLog == []
    {
      this.db := db;
      this.ledger := ledger;
      this.user := user;
      job := None;
      isLoading := true;
      isSubmitting := false;
      navigatedTo := None;
      submittingLog := [];
    }

    /** The mount effect's fetch. A missing id or a failed fetch sends the user
        to the dashboard; after a failed fetch the page stays "loading". */
    method Load(jobId: Option<JobId>, ok: bool)
      requires db.Valid()
      modifies this
      ensures !IsRouteId(jobId) ==> navigatedTo == Some("/dashboard") && job == old(job) && isLoading == old(isLoading)
      ensures IsRouteId(jobId) && !(ok && jobId.value in db.rows) ==>
                navigatedTo == Some("/dashboard") && job == old(job) && isLoading
      ensures IsRouteId(jobId) && ok && jobId.value in db.rows ==>
                job == Some(db.rows[jobId.value]) && !isLoading && navigatedTo == old(navigatedTo)
      ensures unchanged(this`isSubmitting, this`submittingLog)
    {
      if !IsRouteId(jobId) {
        navigatedTo := Some("/dashboard");
        return;
      }
      isLoading := true;
      var data := db.Select(jobId.value, ok);
      if data.None? {
        navigatedTo := Some("/dashboard");
        return;
      }
      job := data;
      isLoading := false;
    }

    /** The corrected polling tick: fetches the row while the job on screen is
        processing, and shows it once it has left "processing". */
    method PollTick(jobId: JobId, ok: bool)
      requires db.Valid()
      modifies this`job
      ensures var fetched := if ok && jobId in db.rows then Some(db.rows[jobId]) else None;
        job == TickCorrected(old(job), fetched)
    {
      if job.Some? && job.value.status == Processing {
        var data := db.Select(jobId, ok);
        if data.Some? && data.value.status != Processing {
          job := data;
        }
      }
    }

    /** Accept Model: sets user_confirmed and status "approved"; on success
        goes to the dashboard. The job on screen is not updated. */
    method HandleApprove(ok: bool)
      requires db.Valid()
      modifies this`isSubmitting, this`submittingLog, this`navigatedTo, db
      ensures db.Valid()
      ensures old(job).None? ==> db.rows == old(db.rows) && navigatedTo == old(navigatedTo)
                                 && submittingLog == old(submittingLog)
      ensures old(job).Some? ==>
                && db.rows == AfterUpdate(old(db.rows), old(job).value.id, AcceptModel, ok)
                && navigatedTo == (if ok then Some("/dashboard") else old(navigatedTo))
                && submittingLog == old(submittingLog) + [true, false]
      ensures isSubmitting == (old(job).None? && old(isSubmitting))
    {
      if job.None? {
        return;
      }
      isSubmitting := true;
      submittingLog := submittingLog + [true];
      var failed := db.Update(job.value.id, AcceptModel, ok);
      if !failed {
        navigatedTo := Some("/dashboard");
      }
      isSubmitting := false;
      submittingLog := submittingLog + [false];
    }

    /** Reject & Refund: grants 5 credits to the signed-in user first, then
        marks the job rejected; on success goes to the upload page. A failed
        write does not take the refund back. */
    method HandleReject(ok: bool)
      requires db.Valid()
      modifies this`isSubmitting, this`submittingLog, this`navigatedTo, db, ledger
      ensures db.Valid()
      ensures old(job).None? ==> db.rows == old(db.rows) && ledger.calls == old(ledger.calls)
                                 && navigatedTo == old(navigatedTo) && submittingLog == old(submittingLog)
      ensures old(job).Some? ==>
                && ledger.calls == old(ledger.calls) + (if user.Some? then [AddCreditsCall(user.value, 5)] else [])
                && db.rows == AfterUpdate(old(db.rows), old(job).value.id, RejectModel, ok)
                && navigatedTo == (if ok then Some("/upload") else old(navigatedTo))
                && submittingLog == old(submittingLog) + [true, false]
      ensures old(job).Some? && user.Some? ==>
                Granted(ledger.calls, user.value) == Granted(old(ledger.calls), user.value) + 5
      ensures isSubmitting == (old(job).None? && old(isSubmitting))
    {
      if job.None? {
        return;
      }
      isSubmitting := true;
      submittingLog := submittingLog + [true];
      if user.Some? {
        ledger.AddCredits(user.value, 5);
      }
      var failed := db.Update(job.value.id, RejectModel, ok);
      if !failed {
        navigatedTo := Some("/upload");
      }
      isSubmitting := false;
      submittingLog := submittingLog + [false];
    }
  }
}
