/** The two-step wizard: upload with analysis, then the result panel whose
    actions confirm a fallback, add an angle, proceed to generation or start
    over. */
module WorkflowContainer {
  import opened Wrappers
  import opened Jobs
  import opened Invoke
  import opened Storage
  import opened ImageAnalysisHook
  import opened AnalysisResultStep

  datatype Step = UploadStep | ResultStep

  class Workflow {
    var step: Step
    var isGenerating: bool
    var navigatedTo: Option<string>
    const analysis: ImageAnalysis

    constructor (analysis: ImageAnalysis)
      ensures this.analysis == analysis
      ensures step == UploadStep && !isGenerating && navigatedTo.None?
    {
      this.analysis := analysis;
      step := UploadStep;
      isGenerating := false;
      navigatedTo := None;
    }

    /** The result panel is rendered only on the result step with a job in hand. */
    predicate ShowsResultPanel()
      reads this, analysis
    {
      step == ResultStep && analysis.jobData.Some?
    }

    /** The panel the result step renders, if any. */
    function CurrentPanel(): (p: Option<Panel>)
      reads this, analysis
      ensures p.Some? <==> ShowsResultPanel()
      ensures p.Some? ==> p.value == PanelFor(analysis.jobData.value.validationStatus,
                                              analysis.jobData.value.userConfirmed)
    {
      if ShowsResultPanel()
      then Some(PanelFor(analysis.jobData.value.validationStatus, analysis.jobData.value.userConfirmed))
      else None
    }

    /** Every upload asks for the "realistic" style; the wizard moves on only
        when the analysis returned a job, so the panel then has one to show. */
    method HandleUpload(fileName: string, env: UploadEnv)
      requires analysis.db.Valid()
      modifies this`step, analysis, analysis.db
      ensures analysis.db.Valid()
      ensures var (r, rows) := UploadOutcome(old(analysis.db.rows), fileName, "realistic", env);
        && analysis.db.rows == rows
        && step == (if r.Ok? then ResultStep else old(step))
        && (ShowsResultPanel() <==> r.Ok?)
        && (r.Ok? ==> analysis.jobData == Some(r.value))
    {
      var r := analysis.UploadAndAnalyze(fileName, "realistic", env);
      if r.Ok? {
        step := ResultStep;
      }
    }

    method HandleConfirmFallback(ok: bool)
      requires analysis.db.Valid()
      modifies analysis, analysis.db
      ensures analysis.db.Valid()
      ensures old(analysis.jobData).None? ==> analysis.db.rows == old(analysis.db.rows)
      ensures old(analysis.jobData).Some? ==>
                analysis.db.rows == AfterUpdate(old(analysis.db.rows), old(analysis.jobData).value.id,
                                                Patch.ConfirmFallback, ok)
      ensures analysis.jobData == if ok && old(analysis.jobData).Some?
                                  then Some(ApplyPatch(old(analysis.jobData).value, Patch.ConfirmFallback))
                                  else old(analysis.jobData)
    {
      if analysis.jobData.Some? {
        var _ := analysis.ConfirmFallback(analysis.jobData.value.id, ok);
      }
    }

    method HandleAddImage(fileName: string, env: AddImageEnv)
      requires analysis.db.Valid()
      modifies analysis, analysis.db
      ensures analysis.db.Valid()
      ensures old(analysis.jobData).None? ==> analysis.db.rows == old(analysis.db.rows)
      ensures old(analysis.jobData).Some? ==>
                var id := old(analysis.jobData).value.id;
                var url := PublicUrl(env.projectUrl, UploadPath(env.uuid, fileName));
                analysis.db.rows == if !env.uploadOk then old(analysis.db.rows)
                                    else AfterUpdate(old(analysis.db.rows), id,
                                                     SetAdditionalImages(CurrentImages(old(analysis.db.rows), id, env.readOk) + [url]),
                                                     env.updateOk)
      ensures analysis.jobData == if old(analysis.jobData).Some? && env.uploadOk && env.updateOk
                                  then Some(old(analysis.jobData).value.(validationStatus := Approved))
                                  else old(analysis.jobData)
    {
      if analysis.jobData.Some? {
        var _ := analysis.AddAdditionalImage(analysis.jobData.value.id, fileName, env);
      }
    }

    /** Starts generation for the job in hand; success opens its preview page
        and leaves the button disabled, failure re-enables it. */
    method HandleProceed(selectOk: bool, updateOk: bool, serverWrites: seq<Patch>, invoke: InvokeResult)
      requires analysis.db.Valid()
      modifies this`isGenerating, this`navigatedTo, analysis.db
      ensures analysis.db.Valid()
      ensures old(analysis.jobData).None? ==>
                analysis.db.rows == old(analysis.db.rows) && isGenerating == old(isGenerating)
                && navigatedTo == old(navigatedTo)
      ensures old(analysis.jobData).Some? ==>
                var id := old(analysis.jobData).value.id;
                var started := selectOk && id in old(analysis.db.rows) && invoke.InvokeOk?;
                && (started ==> navigatedTo == Some("/preview/" + id) && isGenerating)
                && (!started ==> navigatedTo == old(navigatedTo) && !isGenerating)
                && analysis.db.rows == if selectOk && id in old(analysis.db.rows)
                                       then AfterWrites(AfterUpdate(old(analysis.db.rows), id, Patch.StartGeneration, updateOk),
                                                        id, serverWrites)
                                       else old(analysis.db.rows)
    {
      if analysis.jobData.None? {
        return;
      }
      var id := analysis.jobData.value.id;
      isGenerating := true;
      var r := analysis.StartGeneration(id, selectOk, updateOk, serverWrites, invoke);
      if r.Ok? {
        navigatedTo := Some("/preview/" + id);
      } else {
        isGenerating := false;
      }
    }

    /** Starting over clears the analysis and returns to the upload step. */
    method HandleRetry()
      modifies this`step, analysis
      ensures step == UploadStep && analysis.jobData.None? && !ShowsResultPanel()
    {
      analysis.ResetAnalysis();
      step := UploadStep;
    }
  }
}
