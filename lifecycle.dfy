/** The job lifecycle across the files that write a row: which writes admit a
    job to generation, what the result panel shows after each analysis
    outcome and user action, and what the review page shows after
    generation. */
module Lifecycle {
  import opened Wrappers
  import opened Jobs
  import opened Invoke
  import opened AnalyzeImage
  import opened Generate3D
  import opened AnalysisResultStep
  import opened ModelReview

  /** A write that can open the admission guard: a user confirmation, an
      extra angle, an accepted model, or an analysis verdict of "approved". */
  predicate Approves(p: Patch) {
    p.ConfirmFallback? || p.SetAdditionalImages? || p.AcceptModel? || (p.SaveAnalysis? && p.verdict == Approved)
  }

  /** The analysis outcome on a fresh row: the panel shown follows the
      verdict, and only an "approved" verdict admits the job. */
  lemma AnalysedRowPanel(j: Job, a: Analysis)
    requires !j.userConfirmed
    ensures var r := ApplyPatch(j, AnalysisPatch(a));
      && (PanelFor(r.validationStatus, r.userConfirmed) == RejectedPanel <==> a.classification == RejectImage)
      && (PanelFor(r.validationStatus, r.userConfirmed) == ConfirmPanel <==>
            a.classification == FallbackModel && !a.needsAdditionalImages)
      && (PanelFor(r.validationStatus, r.userConfirmed) == ReadyPanel <==> Admitted(r))
      && (Admitted(r) <==> ValidationFor(a) == Approved)
      && (PanelFor(r.validationStatus, r.userConfirmed) == Spinner <==> ValidationFor(a) == Pending)
  {
    SavedAnalysisRow(j, a);
  }

  /** An object the AI neither rejects nor flags, but says cannot proceed,
      is left "pending": the panel spins with no action offered. */
  lemma CannotProceedSpinsForever(j: Job, a: Analysis)
    requires !j.userConfirmed
    requires a.classification !in {RejectImage, FallbackModel} && !a.needsAdditionalImages && !a.canProceed
    ensures var r := ApplyPatch(j, AnalysisPatch(a));
      PanelFor(r.validationStatus, r.userConfirmed) == Spinner && !Admitted(r)
  {
    SavedAnalysisRow(j, a);
  }

  /** The ready panel (with its generate button) is shown only for a job the
      guard admits; an admitted job shows it unless the row is rejected or
      waits for another angle. */
  lemma ReadyPanelMeansAdmitted(j: Job)
    ensures PanelFor(j.validationStatus, j.userConfirmed) == ReadyPanel ==> Admitted(j)
    ensures Admitted(j) && j.validationStatus !in {Rejected, NeedsMoreImages} ==>
              PanelFor(j.validationStatus, j.userConfirmed) == ReadyPanel
  {
  }

  /** Both ways out of the analysis that need the user: confirming a fallback
      and adding an angle each admit the job and show the ready panel. */
  lemma UserActionsAdmit(j: Job, images: seq<string>)
    ensures var c := ApplyPatch(j, Patch.ConfirmFallback);
      Admitted(c) && PanelFor(c.validationStatus, c.userConfirmed) == ReadyPanel
    ensures var m := ApplyPatch(j, SetAdditionalImages(images));
      Admitted(m) && PanelFor(m.validationStatus, m.userConfirmed) == ReadyPanel && m.additionalImages == Some(images)
  {
  }

  /** The browser's start-generation write leaves the guard as it was. */
  lemma StartGenerationKeepsAdmission(j: Job)
    ensures Admitted(ApplyPatch(j, Patch.StartGeneration)) <==> Admitted(j)
  {
  }

  /** After generate-3d marked a row processing or failed, the validation
      status no longer says "approved": a second run is admitted only for a
      job the user confirmed. */
  lemma RetryNeedsConfirmation(j: Job, message: string)
    ensures Admitted(ApplyPatch(j, MarkProcessing)) <==> j.userConfirmed
    ensures Admitted(ApplyPatch(j, MarkFailed(message))) <==> j.userConfirmed
  {
  }

  /** The row after a sequence of writes. */
  function Replay(j: Job, writes: seq<Patch>): (r: Job)
    ensures r.id == j.id && r.userId == j.userId && r.originalImageUrl == j.originalImageUrl
  {
    if writes == [] then j else ApplyPatch(Replay(j, writes[..|writes| - 1]), writes[|writes| - 1])
  }

  /** Writes by an edge function land on the row as a replay of them. */
  lemma {:induction false} AfterWritesReplays(rows: map<JobId, Job>, id: JobId, writes: seq<Patch>)
    requires id in rows
    ensures AfterWrites(rows, id, writes)[id] == Replay(rows[id], writes)
  {
    if writes != [] {
      AfterWritesReplays(rows, id, writes[..|writes| - 1]);
    }
  }

  /** No sequence of writes admits a job unless one of them approves it. */
  lemma {:induction false} OnlyApprovingWritesAdmit(j: Job, writes: seq<Patch>)
    requires !Admitted(j)
    requires forall k :: 0 <= k < |writes| ==> !Approves(writes[k])
    ensures !Admitted(Replay(j, writes))
  {
    if writes != [] {
      OnlyApprovingWritesAdmit(j, writes[..|writes| - 1]);
    }
  }

  /** A job generate-3d would refuse (one the analysis rejected, say) stays
      refused whatever non-approving writes the functions make to it afterwards. */
  lemma RefusedJobStaysRefused(rows: map<JobId, Job>, id: JobId, writes: seq<Patch>)
    requires id in rows && !Admitted(rows[id])
    requires forall k :: 0 <= k < |writes| ==> !Approves(writes[k])
    ensures !Admitted(AfterWrites(rows, id, writes)[id])
  {
    AfterWritesReplays(rows, id, writes);
    OnlyApprovingWritesAdmit(rows[id], writes);
  }

  /** What the review page shows after each outcome of generate-3d: a stored
      model is reviewable, a failure is shown as failed with its credit flag
      cleared, and a row still processing shows the spinner. */
  lemma GenerationOutcomeViews(j: Job, taskId: string, t: MeshyTask, message: string)
    ensures var c := ApplyPatch(j, CompletionPatch(taskId, t));
      (ViewFor(c) == Reviewable <==> StoredModelUrl(t).Some?) && (StoredModelUrl(t).None? ==> ViewFor(c) == Stuck)
    ensures var f := ApplyPatch(j, MarkFailed(message));
      ViewFor(f) == FailedView && !f.creditsConsumed && f.errorMessage == Some(message)
    ensures ViewFor(ApplyPatch(j, MarkProcessing)) == Generating
  {
  }
}
