/** The analyze-image edge function: marks the job "analyzing", asks the AI
    gateway to classify the image, reads the reply as JSON (failing closed to
    a fixed rejection when it cannot), picks the validation status by the
    first matching rule, and saves the analysis on the job row. The HTTP call
    is the `reply` parameter and JSON.parse the `parse` parameter. */
module AnalyzeImage {
  import opened Wrappers
  import opened Text
  import opened Jobs

  const RejectImage: string := "REJECT_IMAGE"
  const FallbackModel: string := "FALLBACK_MODEL"

  /** Removes a Markdown code fence around the AI's JSON: trim, drop a leading
      "```json", then a leading "```", then a trailing "```", and trim again. */
  function StripFences(text: string): (r: string)
    ensures IsTrimmed(r)
    ensures |r| <= |text|
  {
    var t := Trim(text);
    var a := if StartsWith(t, "```json") then t[7..] else t;
    var b := if StartsWith(a, "```") then a[3..] else a;
    var c := if EndsWith(b, "```") then b[..|b| - 3] else b;
    Trim(c)
  }

  /** Text without a fence at either end is only trimmed. */
  lemma StripFencesUnfenced(text: string)
    requires !StartsWith(Trim(text), "```") && !EndsWith(Trim(text), "```")
    ensures StripFences(text) == Trim(text)
  {
    var t := Trim(text);
    assert !StartsWith(t, "```json") by {
      if |t| >= 7 {
        assert t[..7][..3] == t[..3];
      }
    }
    TrimOfTrimmed(t);
  }

  /** The reply shape the prompt forbids but models often send anyway. */
  function FencedJson(body: string): string {
    "```json" + body + "```"
  }

  /** A fenced JSON body comes back as the trimmed body. */
  lemma StripFencesRoundTrip(body: string)
    requires |body| > 0 && body[0] != '`'
    ensures StripFences(FencedJson(body)) == Trim(body)
  {
    var f := FencedJson(body);
    TrimOfTrimmed(f);
    assert f[..7] == "```json";
    var a := f[7..];
    assert a == body + "```";
    assert a[0] == body[0];
    assert a[..|a| - 3] == body;
  }

  /** So does a body in a bare fence, unless the body itself begins with
      "json" (then the first seven characters go as if the fence were "```json"). */
  lemma StripBareFenceRoundTrip(body: string)
    requires |body| > 0 && body[0] != '`' && !StartsWith(body, "json")
    ensures StripFences("```" + body + "```") == Trim(body)
  {
    var g := "```" + body + "```";
    TrimOfTrimmed(g);
    // The seven leading characters differ from "```json" at some position.
    if |body| < 4 {
      assert g[3 + |body|] == '`';
      assert |g| < 7 || g[..7][3 + |body|] != "```json"[3 + |body|];
    } else {
      assert body[..4] != "json";
      var k :| 0 <= k < 4 && body[k] != "json"[k];
      assert g[..7][3 + k] != "```json"[3 + k];
    }
    assert g[..3] == "```";
    var b := g[3..];
    assert b == body + "```";
    assert b[..|b| - 3] == body;
  }

  /** The record used when the AI's reply cannot be read as JSON. */
  const FallbackAnalysis: Analysis := Analysis(
    RejectImage, 0.0, Some("Unknown"), 0.0, ["Failed to analyze image"], false, None,
    Some("Image analysis failed. Please try a different image."), false,
    "Please upload a clearer image.")

  /** The analysis the handler works with: the parsed reply, or the fixed
      rejection when the content is missing (`.trim()` on undefined throws) or
      does not parse. It never invents an analysis of its own. */
  function AnalysisOf(content: Option<string>, parse: string -> Option<Analysis>): (a: Analysis)
    ensures a == FallbackAnalysis || (content.Some? && parse(StripFences(content.value)) == Some(a))
    ensures (content.None? || parse(StripFences(content.value)).None?) ==> a == FallbackAnalysis
  {
    match content
    case None => FallbackAnalysis
    case Some(text) =>
      match parse(StripFences(text))
      case None => FallbackAnalysis
      case Some(parsed) => parsed
  }

  /** The validation status, by the first rule that matches. */
  function ValidationFor(a: Analysis): (v: Phase)
    ensures v in {Rejected, NeedsMoreImages, AwaitingConfirmation, Approved, Pending}
    ensures v == Rejected <==> a.classification == RejectImage
    ensures v == NeedsMoreImages <==> a.classification != RejectImage && a.needsAdditionalImages
    ensures v == AwaitingConfirmation <==>
              a.classification == FallbackModel && !a.needsAdditionalImages
    ensures v == Approved <==>
              a.classification !in {RejectImage, FallbackModel} && !a.needsAdditionalImages && a.canProceed
  {
    if a.classification == RejectImage then Rejected
    else if a.needsAdditionalImages then NeedsMoreImages
    else if a.classification == FallbackModel then AwaitingConfirmation
    else if a.canProceed then Approved
    else Pending
  }

  /** REJECT_IMAGE wins over every flag. */
  lemma RejectDominates(a: Analysis, needs: bool, proceed: bool)
    requires a.classification == RejectImage
    ensures ValidationFor(a.(needsAdditionalImages := needs, canProceed := proceed)) == Rejected
  {
  }

  /** The extra-image rule is checked before the confirmation rule. */
  lemma NeedsMoreImagesBeforeConfirmation(a: Analysis)
    requires a.classification == FallbackModel && a.needsAdditionalImages
    ensures ValidationFor(a) == NeedsMoreImages
  {
  }

  /** The stored model type: the classification, except null for a rejection. */
  function ModelTypeFor(a: Analysis): (mt: Option<string>)
    ensures mt.None? <==> a.classification == RejectImage
    ensures mt.Some? ==> mt.value == a.classification
  {
    if a.classification != RejectImage then Some(a.classification) else None
  }

  /** The update written once the analysis is known. */
  function AnalysisPatch(a: Analysis): (p: Patch)
    ensures p.SaveAnalysis? && p.analysis == a && p.verdict == ValidationFor(a)
  {
    SaveAnalysis(ModelTypeFor(a), ValidationFor(a), a.detectedObject, a, a.rejectionReason)
  }

  /** Saving an analysis clears credits_consumed and replaces the report, the
      detected object and the rejection reason; it leaves the generation
      status and the user's confirmation alone. */
  lemma SavedAnalysisRow(j: Job, a: Analysis)
    ensures var r := ApplyPatch(j, AnalysisPatch(a));
      && !r.creditsConsumed
      && r.qualityReport == AnalysisReport(a)
      && r.detectedObject == a.detectedObject && r.rejectionReason == a.rejectionReason
      && r.validationStatus == ValidationFor(a) && r.modelType == ModelTypeFor(a)
      && r.status == j.status && r.userConfirmed == j.userConfirmed
  {
  }

  /** A reply that cannot be parsed leaves the job rejected, without a model
      type and without credits consumed. */
  lemma FailClosed(j: Job, content: Option<string>, parse: string -> Option<Analysis>)
    requires content.None? || parse(StripFences(content.value)).None?
    ensures var r := ApplyPatch(j, AnalysisPatch(AnalysisOf(content, parse)));
      r.validationStatus == Rejected && r.modelType.None? && !r.creditsConsumed
      && r.rejectionReason.Some?
  {
  }

  /** What the AI gateway answered. */
  datatype AiReply =
    | AiOk(content: Option<string>)        // choices[0].message.content, if any
    | AiHttpError(code: int)               // a non-OK status
    | AiBodyUnreadable(message: string)    // aiResponse.json() threw

  /** The error for a non-OK gateway status. */
  function UpstreamError(code: int): (msg: string)
    ensures code == 429 ==> msg == "Rate limit exceeded. Please try again later."
    ensures code == 402 ==> msg == "AI service credits exhausted."
    ensures code != 429 && code != 402 ==> msg == "Failed to analyze image"
  {
    if code == 429 then "Rate limit exceeded. Please try again later."
    else if code == 402 then "AI service credits exhausted."
    else "Failed to analyze image"
  }

  /** Everything between marking the job and saving the results: the analysis,
      or the error thrown on the way. The API-key check comes first. */
  function Classify(hasApiKey: bool, reply: AiReply, parse: string -> Option<Analysis>): (r: Result<Analysis, string>)
    ensures r.Ok? <==> hasApiKey && reply.AiOk?
    ensures !hasApiKey ==> r == Err("AI service not configured")
    ensures hasApiKey && reply.AiHttpError? ==> r == Err(UpstreamError(reply.code))
    ensures r.Ok? ==> r.value == AnalysisOf(reply.content, parse)
  {
    if !hasApiKey then Err("AI service not configured")
    else match reply
      case AiHttpError(code) => Err(UpstreamError(code))
      case AiBodyUnreadable(msg) => Err(msg)
      case AiOk(content) => Ok(AnalysisOf(content, parse))
  }

  datatype AnalyzeResponse =
    | Analyzed(jobId: JobId, analysis: Analysis, validationStatus: Phase)
    | AnalyzeFailed(error: string)

  function HttpStatus(r: AnalyzeResponse): int {
    if r.Analyzed? then 200 else 500
  }

  /** The handler. `markOk` and `saveOk` say whether the two row updates were
      accepted; the first one's outcome is never checked. */
  method HandleAnalyzeImage(db: JobTable, jobId: JobId, hasApiKey: bool, markOk: bool,
                            reply: AiReply, parse: string -> Option<Analysis>, saveOk: bool)
    returns (resp: AnalyzeResponse)
    requires db.Valid()
    modifies db
    ensures db.Valid()
    ensures var marked := AfterUpdate(old(db.rows), jobId, MarkAnalyzing, markOk);
            var c := Classify(hasApiKey, reply, parse);
            if c.Err? then
              db.rows == marked && resp == AnalyzeFailed(c.error)
            else
              && db.rows == AfterUpdate(marked, jobId, AnalysisPatch(c.value), saveOk)
              && resp == (if saveOk then Analyzed(jobId, c.value, ValidationFor(c.value))
                          else AnalyzeFailed("Failed to save analysis results"))
    // A failure before the save leaves the job "analyzing" and its credit flag alone.
    ensures Classify(hasApiKey, reply, parse).Err? && markOk && jobId in old(db.rows) ==>
              && db.rows[jobId].validationStatus == Analyzing
              && db.rows[jobId].creditsConsumed == old(db.rows[jobId].creditsConsumed)
    // A success reports exactly what the row now holds.
    ensures resp.Analyzed? && jobId in db.rows ==>
              && db.rows[jobId].validationStatus == resp.validationStatus
              && db.rows[jobId].qualityReport == AnalysisReport(resp.analysis)
              && !db.rows[jobId].creditsConsumed
  {
    var _ := db.Update(jobId, MarkAnalyzing, markOk);
    if !hasApiKey {
      return AnalyzeFailed("AI service not configured");
    }
    var content: Option<string>;
    match reply {
      case AiHttpError(code) =>
        return AnalyzeFailed(UpstreamError(code));
      case AiBodyUnreadable(msg) =>
        return AnalyzeFailed(msg);
      case AiOk(c) =>
        content := c;
    }
    var analysis := AnalysisOf(content, parse);
    var validationStatus := ValidationFor(analysis);
    var failed := db.Update(jobId, AnalysisPatch(analysis), saveOk);
    if failed {
      return AnalyzeFailed("Failed to save analysis results");
    }
    resp := Analyzed(jobId, analysis, validationStatus);
  }
}
