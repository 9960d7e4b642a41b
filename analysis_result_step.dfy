/** The wizard's analysis result step: which panel a job's validation status
    selects, and the texts, labels and button states each panel shows. */
module AnalysisResultStep {
  import opened Wrappers
  import opened Jobs

  /** The five renderings, tried in source order. */
  datatype Panel = RejectedPanel | MoreImagesPanel | ConfirmPanel | ReadyPanel | Spinner

  function PanelFor(status: Phase, userConfirmed: bool): (p: Panel)
    ensures p == RejectedPanel <==> status == Rejected
    ensures p == MoreImagesPanel <==> status == NeedsMoreImages
    ensures p == ConfirmPanel <==> status == AwaitingConfirmation && !userConfirmed
    ensures p == ReadyPanel <==>
              status != Rejected && status != NeedsMoreImages && (status == Approved || userConfirmed)
    ensures p == Spinner <==>
              status !in {Rejected, NeedsMoreImages, AwaitingConfirmation, Approved} && !userConfirmed
  {
    if status == Rejected then RejectedPanel
    else if status == NeedsMoreImages then MoreImagesPanel
    else if status == AwaitingConfirmation && !userConfirmed then ConfirmPanel
    else if status == Approved || userConfirmed then ReadyPanel
    else Spinner
  }

  /** A confirmation does not lift a rejection: the rejected panel wins. */
  lemma RejectionOutranksConfirmation(confirmed: bool)
    ensures PanelFor(Rejected, confirmed) == RejectedPanel
  {
  }

  /** `quality_report` read as an analysis; any other report has none of its fields. */
  function AnalysisIn(report: Report): (a: Option<Analysis>)
    ensures a.Some? <==> report.AnalysisReport?
  {
    if report.AnalysisReport? then Some(report.analysis) else None
  }

  /** `x || fallback` for an optional string. */
  function OrElse(x: Option<string>, fallback: string): (s: string)
    ensures x.Some? && x.value != "" ==> s == x.value
    ensures x.None? || x.value == "" ==> s == fallback
  {
    if x.Some? && x.value != "" then x.value else fallback
  }

  /** The rejected panel's explanation: the analysis's reason, or a default. */
  function RejectionText(a: Option<Analysis>): (t: string)
    ensures t != ""
    ensures a.Some? && a.value.rejectionReason.Some? && a.value.rejectionReason.value != "" ==>
              t == a.value.rejectionReason.value
  {
    OrElse(if a.Some? then a.value.rejectionReason else None,
           "This image cannot be processed. Please upload a clearer photo.")
  }

  /** The issue list is shown only when there is at least one issue. */
  predicate ShowsIssues(a: Option<Analysis>) {
    a.Some? && |a.value.qualityIssues| > 0
  }

  /** The extra-image panel's request: the analysis's, or a default. */
  function ImageRequestText(a: Option<Analysis>): (t: string)
    ensures t != ""
    ensures a.Some? && a.value.additionalImageRequest.Some? && a.value.additionalImageRequest.value != "" ==>
              t == a.value.additionalImageRequest.value
  {
    OrElse(if a.Some? then a.value.additionalImageRequest else None,
           "Please provide an additional angle for better 3D reconstruction.")
  }

  /** The confirmation panel's object name. */
  function ObjectName(a: Option<Analysis>): (t: string)
    ensures t != ""
    ensures a.Some? && a.value.detectedObject.Some? && a.value.detectedObject.value != "" ==>
              t == a.value.detectedObject.value
  {
    OrElse(if a.Some? then a.value.detectedObject else None, "Unknown Object")
  }

  /** MODEL_TYPE_LABELS, keyed by `modelType || ""`. */
  function LabelOf(modelType: Option<string>): (name: Option<string>)
    ensures name.Some? <==>
              modelType.Some? && modelType.value in {"HEAD_MODEL", "BUILDING_MODEL", "ANIMAL_MODEL", "FALLBACK_MODEL"}
    ensures modelType == Some("HEAD_MODEL") ==> name == Some("Human Head")
    ensures modelType == Some("BUILDING_MODEL") ==> name == Some("Building")
    ensures modelType == Some("ANIMAL_MODEL") ==> name == Some("Animal")
    ensures modelType == Some("FALLBACK_MODEL") ==> name == Some("Object")
  {
    if modelType == Some("HEAD_MODEL") then Some("Human Head")
    else if modelType == Some("BUILDING_MODEL") then Some("Building")
    else if modelType == Some("ANIMAL_MODEL") then Some("Animal")
    else if modelType == Some("FALLBACK_MODEL") then Some("Object")
    else None
  }

  /** `MODEL_TYPE_LABELS[modelType || ""] || fallback`: the extra-image panel
      falls back to "Unknown", the ready panel to "Model". */
  function LabelOr(modelType: Option<string>, fallback: string): (t: string)
    ensures LabelOf(modelType).Some? ==> t == LabelOf(modelType).value
    ensures LabelOf(modelType).None? ==> t == fallback
  {
    OrElse(LabelOf(modelType), fallback)
  }

  /** Neither fallback is a label, so each panel shows its fallback exactly
      for an unlabelled model type. */
  lemma FallbackOnlyWhenUnlabelled(modelType: Option<string>)
    ensures LabelOr(modelType, "Unknown") == "Unknown" <==> LabelOf(modelType).None?
    ensures LabelOr(modelType, "Model") == "Model" <==> LabelOf(modelType).None?
  {
  }

  /** A rejected image has no model type, so its label falls back. */
  lemma UnknownTypeLabels()
    ensures LabelOr(None, "Unknown") == "Unknown" && LabelOr(None, "Model") == "Model"
    ensures LabelOr(Some("REJECT_IMAGE"), "Unknown") == "Unknown"
    ensures LabelOr(Some("REJECT_IMAGE"), "Model") == "Model"
  {
  }

  /** The generate button is disabled exactly while generating (the prop may be absent). */
  function GenerateEnabled(isGenerating: Option<bool>): (enabled: bool)
    ensures enabled <==> isGenerating != Some(true)
  {
    !(isGenerating.Some? && isGenerating.value)
  }
}
