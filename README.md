# Figurine job lifecycle — a Dafny model

This project models the core of a web application that turns a photo into a
3D-printable figurine. A user uploads an image. An `analyze-image` edge function
asks an AI gateway to classify it and stores a validation verdict on the job
row. The user may then confirm a fallback object or add another angle. A
`generate-3d` edge function admits only approved or confirmed jobs. It marks
the job processing, runs a Meshy image-to-3D task that it polls at most 60
times, and stores the model or marks the job failed. A review page lets the
user accept the model or reject it, with a 5-credit refund. Alongside the jobs,
a Stripe webhook mirrors subscriptions onto a `subscriptions` table, the auth
context normalises the subscription status, and a tier table maps Stripe ids to
plans and credits.

Modules follow the source files:

- `Jobs`: the job row, every write the core makes to it (`Patch`), and the
  `figurine_jobs` table as a class.
- `Invoke`: an edge function called from the browser.
- `Text` and `Storage`: the string operations and upload paths the core relies on.
- `AnalyzeImage`, `Generate3D` and `StripeWebhook`: the three edge functions.
- `ImageAnalysisHook` and `FigurineJobHook`: the two React hooks, as classes whose
  fields are the hooks' state.
- `AnalysisResultStep`, `WorkflowContainer`, `UploadPage` and `ModelReview`: the pages.
- `AuthContext` and `SubscriptionTiers`: the subscription side.
- `Lifecycle`: properties that span several files.

External services are parameters. The AI reply, JSON.parse, the Meshy replies,
Stripe, the auth user list and whether each database write is accepted are all
passed in. An edge function called from the browser is modelled by its result
and by the writes it made to the row (`serverWrites`).

Where the code and the system's design description differ, the model follows the code:

- No credits are deducted anywhere in this code. `credits_consumed` is only a
  flag: generation sets it and analysis or failure clears it. The only credit
  movement is the `add_credits(5)` refund on rejection.
- The style is mapped to a Meshy preset (`meshyStyle`), but the preset is never
  sent. Every task uses the same request.
- The webhook records every active subscription as plan "pro", whichever
  price the subscriber pays.
- When a webhook secret is set but the signature header is missing, the event
  is parsed without verification.
- `createJob` answers with the row as inserted, still "pending". It does not
  return the row as generation left it.
- The upload page navigates to `/preview` with the job id in the navigation
  state. The wizard navigates to `/preview/<id>`.

## Model

| member | source | states |
|---|---|---|
| Text.Trim | supabase/functions/analyze-image/index.ts:120 | trim leaves no whitespace at either end and never lengthens the text |
| Text.TrimCutsWhitespace | supabase/functions/analyze-image/index.ts:120 | the trimmed text is an infix of the input and everything cut from both ends is whitespace |
| Text.TrimOfTrimmed | supabase/functions/analyze-image/index.ts:130 | text with no whitespace at either end is left as it is |
| Text.TrimIdempotent | supabase/functions/analyze-image/index.ts:120-130 | trimming twice is trimming once |
| Text.NatToString | supabase/functions/generate-3d/index.ts:94 | a status code renders as a non-empty string of digits with no leading zero |
| Text.NatToStringRoundTrip | supabase/functions/generate-3d/index.ts:94 | reading the rendered digits back gives the status code |
| Text.AfterLastDot | src/hooks/useImageAnalysis.ts:43 | the extension contains no '.', and a name without '.' is its own extension |
| Text.AfterLastDotIsSuffix | src/hooks/useImageAnalysis.ts:43 | the extension is a suffix of the name, preceded by the last '.' when it is not the whole name |
| Text.AfterLastDotOfJoin | src/hooks/useImageAnalysis.ts:43-45 | pop() after joining a prefix, '.' and a dot-free extension gives that extension back |
| Storage.UploadPath | src/hooks/useImageAnalysis.ts:43-45 | the upload path lies under "images/" and keeps the file's extension |
| Storage.UploadPathInjective | src/hooks/useFigurineJob.ts:28-30 | two uploads share a path only when they got the same UUID and the same extension |
| Storage.PublicUrlKeepsExtension | src/hooks/useImageAnalysis.ts:56-60 | the public URL of an upload still ends in the file's extension |
| Storage.PublicUrl | src/hooks/useImageAnalysis.ts:56-60 | the public URL begins with the project URL and ends with the stored path |
| Jobs.ApplyPatch | src/hooks/useImageAnalysis.ts:136-139 | no write to a job changes its id, owner, image, style or creation time; only completion writes the model URLs; only confirmation and review write user_confirmed |
| Jobs.NewRow | src/hooks/useImageAnalysis.ts:69-80 | an inserted row keeps the given id, owner, image, style and creation time, is pending on both columns, unconfirmed, without credits consumed and without a model |
| Jobs.AfterUpdate | src/pages/ModelReview.tsx:88-94 | an update by id patches the matching row only; a missing id changes nothing and is no error; a refused write changes nothing |
| Jobs.JobTable.Update | src/pages/ModelReview.tsx:88-96 | the write reports failure exactly when refused, and the table becomes the update's result |
| Jobs.JobTable.Insert | src/hooks/useFigurineJob.ts:79-100 | an insert succeeds exactly when accepted with a fresh id and returns the row it stored |
| Jobs.JobTable.Select | src/hooks/useFigurineJob.ts:140-153 | a read by id returns that row, or nothing on an error or a missing row |
| Jobs.JobTable.SelectAllNewestFirst | src/hooks/useFigurineJob.ts:155-167 | the listing holds every row exactly once, newest first; a failed query gives the empty list |
| Jobs.InsertionPoint | src/hooks/useFigurineJob.ts:159 | a row created at t goes after every row at least as new and before every older one |
| Jobs.SpliceInOrder | src/hooks/useFigurineJob.ts:159 | placing a row with a new id at its insertion point keeps the listing ordered, duplicate-free and adds exactly that row |
| Jobs.Ledger.AddCredits | src/pages/ModelReview.tsx:122-127 | each add_credits call is recorded and grants exactly its amount to its user |
| Invoke.AfterWrites | supabase/functions/generate-3d/index.ts:57-64 | an edge function's writes to one row leave every other row and the set of rows unchanged |
| Invoke.AfterWritesKeepsIdentity | supabase/functions/generate-3d/index.ts:143-158 | no sequence of writes moves a row to another owner, image or style |
| Invoke.RunWrites | src/hooks/useImageAnalysis.ts:90-95 | running the function's writes in order leaves the table as their replay |
| AnalyzeImage.StripFences | supabase/functions/analyze-image/index.ts:120-130 | the cleaned reply has no whitespace at either end and is no longer than the reply |
| AnalyzeImage.StripFencesUnfenced | supabase/functions/analyze-image/index.ts:120-130 | a reply with no fence at either end is only trimmed |
| AnalyzeImage.StripFencesRoundTrip | supabase/functions/analyze-image/index.ts:121-130 | a body in a ```json fence comes back as the trimmed body |
| AnalyzeImage.StripBareFenceRoundTrip | supabase/functions/analyze-image/index.ts:124-130 | a body in a bare ``` fence comes back as the trimmed body unless it starts with "json" |
| AnalyzeImage.AnalysisOf | supabase/functions/analyze-image/index.ts:117-145 | the analysis is the parsed reply, or the fixed rejection when the content is missing or does not parse |
| AnalyzeImage.FailClosed | supabase/functions/analyze-image/index.ts:131-145 | an unreadable reply saves a rejection with a reason, no model type and the credit flag cleared |
| AnalyzeImage.ValidationFor | supabase/functions/analyze-image/index.ts:148-157 | the verdict is exactly one of rejected, needs_more_images, awaiting_confirmation, approved or pending, each with its iff condition in rule order |
| AnalyzeImage.RejectDominates | supabase/functions/analyze-image/index.ts:149-150 | REJECT_IMAGE is rejected whatever the other flags say |
| AnalyzeImage.NeedsMoreImagesBeforeConfirmation | supabase/functions/analyze-image/index.ts:151-154 | a fallback object that needs more images asks for them before asking for confirmation |
| AnalyzeImage.ModelTypeFor | supabase/functions/analyze-image/index.ts:163 | the stored model type is the classification, and null exactly for a rejection |
| AnalyzeImage.AnalysisPatch | supabase/functions/analyze-image/index.ts:160-170 | the save writes the analysis with its verdict |
| AnalyzeImage.SavedAnalysisRow | supabase/functions/analyze-image/index.ts:160-170 | after the save the row holds the report, object, reason, verdict and model type, the credit flag is cleared, and generation status and confirmation are kept |
| AnalyzeImage.UpstreamError | supabase/functions/analyze-image/index.ts:98-109 | gateway status 429 and 402 get their own messages and every other failure the generic one |
| AnalyzeImage.Classify | supabase/functions/analyze-image/index.ts:69-145 | an analysis comes out exactly when the key is set and the gateway answered; a missing key is reported first |
| AnalyzeImage.HandleAnalyzeImage | supabase/functions/analyze-image/index.ts:63-201 | the job is marked analyzing first; a failure leaves it analyzing with its credit flag alone; a success reports exactly the verdict and report the row now holds |
| Generate3D.StyleFor | supabase/functions/generate-3d/index.ts:10-15 | realistic, anime, lego and fortnite map to their presets and any other style to realistic |
| Generate3D.AnimeAndFortniteShareAPreset | supabase/functions/generate-3d/index.ts:12-14 | anime and fortnite get the same preset, lego a different one |
| Generate3D.Admitted | supabase/functions/generate-3d/index.ts:50-54 | no contract of its own; RefusedBeforeAnyMutation, SuccessfulRun, OnlyApprovingWritesAdmit and RetryNeedsConfirmation prove that generation runs only for an approved or user-confirmed job |
| Generate3D.TaskRequest | supabase/functions/generate-3d/index.ts:82-88 | every task asks for the image with quad topology and 30000 polygons, whatever the style |
| Generate3D.PollFrom | supabase/functions/generate-3d/index.ts:108-133 | polling succeeds only on a SUCCEEDED task and fails only with a "Meshy task failed: " message |
| Generate3D.TaskFailureMessage | supabase/functions/generate-3d/index.ts:128-130 | a failed task's message starts with "Meshy task failed: ", is never just that prefix, and ends with the task's own error when it has one |
| Generate3D.ChecksFrom | supabase/functions/generate-3d/index.ts:106-108 | at most 60 status checks are made, and exactly the remaining ones on a time-out |
| Generate3D.PollStep | supabase/functions/generate-3d/index.ts:117-132 | a check that does not end the loop hands over to the next check |
| Generate3D.Poll | supabase/functions/generate-3d/index.ts:103-137 | the polling loop's outcome and number of checks are those of the first terminal reply within 60 checks |
| Generate3D.TimedOutIffNoTerminalReply | supabase/functions/generate-3d/index.ts:135-137 | polling times out exactly when none of the 60 checks ends the loop |
| Generate3D.SucceededIsFirstTerminal | supabase/functions/generate-3d/index.ts:126-130 | a success is the first terminal reply, with no earlier FAILED or EXPIRED one |
| Generate3D.ProviderResult | supabase/functions/generate-3d/index.ts:91-137 | the provider step succeeds only with a created task that SUCCEEDED, and a created task that never ends times out |
| Generate3D.StoredModelUrl | supabase/functions/generate-3d/index.ts:148 | the stored model URL is the glb, else the obj, else null, never empty |
| Generate3D.ResponseModelUrl | supabase/functions/generate-3d/index.ts:171 | a non-empty URL in the response is the one stored on the row, and with nothing stored the response carries no usable URL |
| Generate3D.ResponseOmitsObjFallback | supabase/functions/generate-3d/index.ts:148-171 | a task with only an obj file stores it but answers with no model URL |
| Generate3D.CompletionPatch | supabase/functions/generate-3d/index.ts:143-158 | completion stores the model URL and the thumbnail exactly when one is given |
| Generate3D.TryGenerate | supabase/functions/generate-3d/index.ts:22-179 | the try block keeps the set of rows and every other job as they were, and sends a task only for an existing, admitted job, with the fixed request |
| Generate3D.GenerateRun | supabase/functions/generate-3d/index.ts:22-216 | the whole handler, failure write included, keeps the set of rows and every other job, and sends a task only for an admitted job |
| Generate3D.SuccessfulRun | supabase/functions/generate-3d/index.ts:38-179 | a success implies the job existed and was admitted, the task was sent, and the row is completed with the stored URL and credits still flagged |
| Generate3D.RefusedBeforeAnyMutation | supabase/functions/generate-3d/index.ts:50-54 | a job neither approved nor confirmed is refused before anything is written or sent; only the failure write may touch it |
| Generate3D.NoTaskWithoutProcessingWrite | supabase/functions/generate-3d/index.ts:56-95 | no Meshy task is created unless the job was admitted and marked processing |
| Generate3D.FailedRunRow | supabase/functions/generate-3d/index.ts:181-204 | a failed run whose failure write lands leaves the job failed with the error text and the credit flag cleared |
| Generate3D.TimeOutFailsTheRun | supabase/functions/generate-3d/index.ts:135-137 | sixty checks without a terminal reply fail the request with "Meshy task timed out" |
| Generate3D.HandleGenerate3D | supabase/functions/generate-3d/index.ts:22-216 | the handler's response, new table and sent request are the run the specification functions describe |
| ImageAnalysisHook.UploadedJobBelongsToUser | src/hooks/useImageAnalysis.ts:36-115 | a job comes back only after upload, sign-in, insert, analysis and fetch all succeeded, and it is the user's row for that image and style |
| ImageAnalysisHook.NoRowBeforeInsert | src/hooks/useImageAnalysis.ts:47-84 | a failure before the insert leaves the table unchanged |
| ImageAnalysisHook.InsertedRowIsPending | src/hooks/useImageAnalysis.ts:69-80 | the inserted row is pending, unconfirmed and without credits consumed (the last two by the column defaults) |
| ImageAnalysisHook.InvokeErrorText | src/hooks/useImageAnalysis.ts:98 | the thrown message is the invoke error's message, or "Analysis failed" when that is empty |
| ImageAnalysisHook.UploadOutcome | src/hooks/useImageAnalysis.ts:36-127 | every existing row is kept; exactly the new id is added once the upload, sign-in and insert succeed, and nothing otherwise; a returned job is the new row as the table now holds it |
| ImageAnalysisHook.ImageAnalysis.UploadAndAnalyze | src/hooks/useImageAnalysis.ts:36-127 | the result and table are the upload outcome, the job is kept only on success, and the busy flags take the exact sequence of values the hook sets |
| ImageAnalysisHook.ImageAnalysis.ConfirmFallback | src/hooks/useImageAnalysis.ts:129-156 | the job is confirmed and approved, and the local copy follows only a successful write |
| ImageAnalysisHook.ImageAnalysis.AddAdditionalImage | src/hooks/useImageAnalysis.ts:158-214 | the new URL is appended to the stored list and the job approved; the local copy records the approval but not the image |
| ImageAnalysisHook.LostReadDropsEarlierImages | src/hooks/useImageAnalysis.ts:175-190 | a failed read before the update replaces the stored list with the new image alone |
| ImageAnalysisHook.AddedImageIsAppended | src/hooks/useImageAnalysis.ts:175-190 | with a successful read the stored list grows by exactly the new URL at its end |
| ImageAnalysisHook.ImageAnalysis.StartGeneration | src/hooks/useImageAnalysis.ts:216-262 | a missing job fails with "Job not found" and writes nothing; otherwise the job is marked processing with credits consumed (write errors ignored) and generate-3d's error is passed on |
| ImageAnalysisHook.ImageAnalysis.ResetAnalysis | src/hooks/useImageAnalysis.ts:264-268 | the job and both busy flags are cleared |
| AnalysisResultStep.PanelFor | src/components/workflow/AnalysisResultStep.tsx:41-277 | each panel is shown exactly under its condition, tried in source order |
| AnalysisResultStep.RejectionOutranksConfirmation | src/components/workflow/AnalysisResultStep.tsx:42 | a rejected job shows the rejection even when confirmed |
| AnalysisResultStep.AnalysisIn | src/components/workflow/AnalysisResultStep.tsx:31 | the report is read as an analysis only when it is one |
| AnalysisResultStep.ShowsIssues | src/components/workflow/AnalysisResultStep.tsx:55 | no contract of its own: the issues block appears exactly when the analysis lists at least one quality issue |
| AnalysisResultStep.RejectionText | src/components/workflow/AnalysisResultStep.tsx:51 | the rejection text is the analysis's reason when given, and never empty |
| AnalysisResultStep.ImageRequestText | src/components/workflow/AnalysisResultStep.tsx:95 | the request text is the analysis's request when given, and never empty |
| AnalysisResultStep.ObjectName | src/components/workflow/AnalysisResultStep.tsx:161 | a non-empty detected object is shown as given, and the name shown is never empty |
| AnalysisResultStep.LabelOf | src/components/workflow/AnalysisResultStep.tsx:16-21 | exactly the four model types have a label: "Human Head", "Building", "Animal" and "Object" |
| AnalysisResultStep.LabelOr | src/components/workflow/AnalysisResultStep.tsx:108 | a labelled model type shows its label, any other type the panel's fallback |
| AnalysisResultStep.FallbackOnlyWhenUnlabelled | src/components/workflow/AnalysisResultStep.tsx:225 | the extra-image panel shows "Unknown" and the ready panel "Model" exactly for an unlabelled type |
| AnalysisResultStep.UnknownTypeLabels | src/components/workflow/AnalysisResultStep.tsx:108 | a missing or REJECT_IMAGE type gets the fallback labels |
| AnalysisResultStep.GenerateEnabled | src/components/workflow/AnalysisResultStep.tsx:257 | the generate button is enabled exactly when not generating |
| WorkflowContainer.Workflow.CurrentPanel | src/components/workflow/WorkflowContainer.tsx:103 | a panel is rendered exactly on the result step with a job, and it is the one its status selects |
| WorkflowContainer.Workflow.HandleUpload | src/components/workflow/WorkflowContainer.tsx:24-31 | every upload uses "realistic", and the wizard moves on, with a panel to show, exactly when analysis returned a job |
| WorkflowContainer.Workflow.HandleConfirmFallback | src/components/workflow/WorkflowContainer.tsx:33-37 | the job in hand is confirmed; without one nothing happens |
| WorkflowContainer.Workflow.HandleAddImage | src/components/workflow/WorkflowContainer.tsx:39-43 | with a job in hand, the new URL is appended to its stored list and the job approved, or the table is left alone when the upload fails; the local copy is approved only when upload and update succeed; without a job nothing happens |
| WorkflowContainer.Workflow.HandleProceed | src/components/workflow/WorkflowContainer.tsx:45-55 | a found job is marked processing with credits consumed and then takes generate-3d's writes, a missing one leaves the table alone; a started generation opens /preview/&lt;id&gt; and keeps the button disabled, a failure re-enables it |
| WorkflowContainer.Workflow.HandleRetry | src/components/workflow/WorkflowContainer.tsx:57-60 | starting over clears the job and returns to the upload step with no panel |
| FigurineJobHook.DirectRow | src/hooks/useFigurineJob.ts:79-90 | a directly created job is pending but approved and confirmed, with no credits consumed (by the column default) |
| FigurineJobHook.AfterCreate | src/hooks/useFigurineJob.ts:79-119 | createJob adds exactly the new row, the user's, and leaves every other row alone |
| FigurineJobHook.FigurineJobs.UploadImage | src/hooks/useFigurineJob.ts:25-62 | the upload answers with the public URL of a fresh path, or nothing when it fails, and the busy flag ends off |
| FigurineJobHook.FigurineJobs.CreateJob | src/hooks/useFigurineJob.ts:64-138 | a job comes back exactly when the insert and generate-3d succeeded, and it is the row as inserted |
| FigurineJobHook.FigurineJobs.GetJob | src/hooks/useFigurineJob.ts:140-153 | the job by id, or nothing on an error or a missing row |
| FigurineJobHook.FigurineJobs.GetAllJobs | src/hooks/useFigurineJob.ts:155-167 | every job once, newest first, or the empty list on an error |
| UploadPage.CheckFile | src/pages/Upload.tsx:55-72 | a file is accepted exactly when it is an image of at most 10 MiB; the type is checked first |
| UploadPage.SizeLimitBoundary | src/pages/Upload.tsx:65 | exactly 10 MiB is accepted, one byte more is not, and a large non-image is reported as the wrong type |
| UploadPage.UploadedUrl | src/pages/Upload.tsx:92 | the uploaded image's URL keeps the selected file's extension |
| UploadPage.Page.HandleDrag | src/pages/Upload.tsx:35-43 | dragenter and dragover set the drag flag, dragleave clears it, other events keep it |
| UploadPage.Page.HandleFile | src/pages/Upload.tsx:55-80 | an accepted file is selected and previewed; a rejected one changes nothing |
| UploadPage.Page.HandleDrop | src/pages/Upload.tsx:45-53 | a drop ends the drag and handles the first file, if any |
| UploadPage.Page.SelectStyle | src/pages/Upload.tsx:207 | the chosen style is selected |
| UploadPage.Page.HandleGenerate | src/pages/Upload.tsx:88-101 | without a file and a style nothing happens; otherwise the job is created from the uploaded URL, and the preview opens only when both steps succeeded |
| UploadPage.Page.ClearSelection | src/pages/Upload.tsx:103-107 | file, preview and style are cleared |
| ModelReview.ViewFor | src/pages/ModelReview.tsx:177-179 | the page shows generating, review, failure or neither, each exactly under its condition |
| ModelReview.ReviewedJobsAreNotReviewable | src/pages/ModelReview.tsx:88-94 | an accepted or rejected job is no longer offered for review |
| ModelReview.OffersReview | src/pages/ModelReview.tsx:177-179 | no contract of its own: by ViewFor it holds exactly for a completed job with a non-empty model URL; ReviewedJobsAreNotReviewable proves an accepted or rejected job no longer qualifies, and GenerationOutcomeViews that a completion qualifies exactly when it stored a URL |
| ModelReview.Tick | src/pages/ModelReview.tsx:66-78 | a tick replaces the job on screen only when the callback saw it processing and the fetched row has left processing |
| ModelReview.TickAsWritten | src/pages/ModelReview.tsx:66-81 | as written, every tick leaves the job on screen as it was |
| ModelReview.TickCorrected | src/pages/ModelReview.tsx:66-78 | the corrected tick changes the screen only to replace a processing job with a fetched row that has left processing |
| ModelReview.PollingNeverRefreshes | src/pages/ModelReview.tsx:66-81 | as written, polling never changes the job on screen |
| ModelReview.StaleClosureKeepsProcessing | src/pages/ModelReview.tsx:66-81 | as written, a job that completed keeps showing "generating"; the corrected tick shows the completed row |
| ModelReview.CorrectedPollPicksUpCompletion | src/pages/ModelReview.tsx:66-78 | with the callback reading the job on screen, a processing job is replaced by its finished row |
| ModelReview.ReviewPage.Load | src/pages/ModelReview.tsx:35-61 | a missing id or a failed fetch goes to the dashboard; a found job is shown and loading ends |
| ModelReview.ReviewPage.PollTick | src/pages/ModelReview.tsx:66-78 | the corrected tick: the job on screen becomes the fetched row once it has left processing |
| ModelReview.ReviewPage.HandleApprove | src/pages/ModelReview.tsx:83-114 | the job is confirmed and approved, success goes to the dashboard, and submitting is switched on then off |
| ModelReview.ReviewPage.HandleReject | src/pages/ModelReview.tsx:116-156 | a signed-in user is granted 5 credits first, then the job is marked rejected; success goes to the upload page; a failed write keeps the refund |
| SubscriptionTiers.TierOf | src/lib/subscription-tiers.ts:4-46 | every plan has its tier in the table |
| SubscriptionTiers.FirstMatch | src/lib/subscription-tiers.ts:50-60 | the match found has that id, and no match means no tier has it |
| SubscriptionTiers.PlanById | src/lib/subscription-tiers.ts:50-72 | a missing or empty id or an unknown id gives free; a paid plan is returned only for its own id |
| SubscriptionTiers.GetPlanByProductId | src/lib/subscription-tiers.ts:50-60 | a missing or empty product id gives free, and a paid plan comes back only for its own product id |
| SubscriptionTiers.GetPlanByPriceId | src/lib/subscription-tiers.ts:62-72 | a missing or empty price id gives free, and a paid plan comes back only for its own price id |
| SubscriptionTiers.PlanLookupRoundTrip | src/lib/subscription-tiers.ts:50-72 | each paid plan is found again from its own product id and its own price id |
| SubscriptionTiers.ProductIdIsNotAPriceId | src/lib/subscription-tiers.ts:62-72 | a product id looked up as a price id gives free |
| SubscriptionTiers.GetCreditsForPlan | src/lib/subscription-tiers.ts:74-76 | each plan gets its tier's credits, and 15 exactly for free |
| SubscriptionTiers.DearerPlansCarryMoreCredits | src/lib/subscription-tiers.ts:4-46 | a dearer plan carries more credits |
| StripeWebhook.PeriodEndMs | supabase/functions/stripe-webhook/index.ts:102 | the period end converts to milliseconds exactly when present and within the Date range, else "Invalid time value" |
| StripeWebhook.FindUser | supabase/functions/stripe-webhook/index.ts:86-87 | the user found has that email and no earlier user has it; none is found only when no user has it |
| StripeWebhook.SyncPatch | supabase/functions/stripe-webhook/index.ts:94-105 | a subscription event writes customer and subscription ids and the period end in milliseconds (seconds × 1000); an active subscription is recorded as "pro", any other status as "free" |
| StripeWebhook.ApplySubscriptionPatch | supabase/functions/stripe-webhook/index.ts:128-135 | a sync writes every column from the event; a cancellation writes "canceled", "free" and a null subscription id, keeping the customer id and the period end |
| StripeWebhook.AfterSubscriptionUpdate | supabase/functions/stripe-webhook/index.ts:95-105 | an update by user id patches the owner's row only; a missing row or a refused write changes nothing |
| StripeWebhook.Dispatch | supabase/functions/stripe-webhook/index.ts:60-155 | an event never adds or removes a row; invoice and unknown events, and events with no owner, answer 200 and write nothing |
| StripeWebhook.InvoiceEventsWriteNothing | supabase/functions/stripe-webhook/index.ts:141-160 | invoice.paid, invoice.payment_failed and unknown events answer 200 and leave the table as it was |
| StripeWebhook.Owner | supabase/functions/stripe-webhook/index.ts:73-92 | a row owner is found only for a live customer with an email matching a user |
| StripeWebhook.Mirror | supabase/functions/stripe-webhook/index.ts:61-109 | a created or updated subscription never adds or removes a row; every failure answers 500 and writes nothing, including a missing or out-of-range period end for a known owner |
| StripeWebhook.WebhookRun | supabase/functions/stripe-webhook/index.ts:20-168 | the handler never adds or removes a row, writes nothing unless it answers 200, and answers 400 exactly when a checked signature fails |
| StripeWebhook.WebhookKeepsOtherRows | supabase/functions/stripe-webhook/index.ts:60-155 | an event changes at most its owner's row |
| StripeWebhook.ForgedSignatureRejected | supabase/functions/stripe-webhook/index.ts:35-45 | with a secret and a signature, a failed verification answers 400 and writes nothing |
| StripeWebhook.UnsignedEventsAreTrusted | supabase/functions/stripe-webhook/index.ts:35-50 | with a secret but no signature header, the event is processed as if verified |
| StripeWebhook.ActiveSubscriptionRecordedAsPro | supabase/functions/stripe-webhook/index.ts:94-105 | any active subscription is stored as plan "pro" and status "active" with its id |
| StripeWebhook.DeletionDowngrades | supabase/functions/stripe-webhook/index.ts:128-135 | a deleted subscription leaves the owner canceled, on free, with no subscription id |
| StripeWebhook.MissingPeriodEndFails | supabase/functions/stripe-webhook/index.ts:102 | a subscription without a period end answers 500 "Invalid time value" and writes nothing |
| StripeWebhook.SubscriptionTable.Update | supabase/functions/stripe-webhook/index.ts:95-105 | the table becomes the update's result |
| StripeWebhook.HandleStripeWebhook | supabase/functions/stripe-webhook/index.ts:20-168 | the response and the new table are the run the specification functions describe |
| AuthContext.Normalise | src/contexts/AuthContext.tsx:62-69 | each field, the end date included, takes the reply's value when truthy and its default otherwise, except the balance, which defaults only when missing |
| AuthContext.EmptyReplyIsDefault | src/contexts/AuthContext.tsx:27-34 | an empty reply normalises to the default status |
| AuthContext.OrVersusNullish | src/contexts/AuthContext.tsx:64-68 | an empty plan becomes "free" but a zero balance stays zero |
| AuthContext.NormaliseIdempotent | src/contexts/AuthContext.tsx:62-69 | a normalised status read back normalises to itself |
| AuthContext.RefreshedStatus | src/contexts/AuthContext.tsx:44-73 | without a token the default; on an error or a null body the current status; otherwise the normalised reply |
| AuthContext.DeferredRefreshAsWritten | src/contexts/AuthContext.tsx:84-87 | as written, the deferred refresh always yields the default status, whatever check-subscription answers |
| AuthContext.SignInRefreshShowsFree | src/contexts/AuthContext.tsx:75-108 | as written, the refresh after a sign-in shows the free default even when the reply says "pro" |
| AuthContext.SignInShowsReply | src/contexts/AuthContext.tsx:84-87 | refreshing with the new session shows the reply |
| AuthContext.AuthState.RefreshSubscription | src/contexts/AuthContext.tsx:44-73 | the stored status becomes the refreshed status for the current session |
| AuthContext.AuthState.OnAuthStateChange | src/contexts/AuthContext.tsx:77-92 | the listener stores the session, ends loading, and resets the status without a user or refreshes it with the new session |
| AuthContext.AuthState.OnInitialSession | src/contexts/AuthContext.tsx:95-105 | the initial session is stored and loading ends; a user's status is refreshed with that session, the corrected form of the deferred refresh |
| AuthContext.AuthState.SignOut | src/contexts/AuthContext.tsx:155-158 | signing out resets the status to the default |
| AuthContext.UseAuth | src/contexts/AuthContext.tsx:177-183 | the context is returned inside a provider, and the error outside one |
| Lifecycle.AnalysedRowPanel | supabase/functions/analyze-image/index.ts:147-170 | after analysis the panel follows the verdict, and the ready panel appears exactly when generation would admit the job |
| Lifecycle.CannotProceedSpinsForever | src/components/workflow/AnalysisResultStep.tsx:272-277 | an object neither rejected nor flagged but unable to proceed stays pending: spinner, no action, not admitted |
| Lifecycle.ReadyPanelMeansAdmitted | src/components/workflow/AnalysisResultStep.tsx:200 | the generate button is shown only for an admitted job, and for every admitted job neither rejected nor waiting for an angle |
| Lifecycle.UserActionsAdmit | src/hooks/useImageAnalysis.ts:136-139 | confirming a fallback or adding an angle admits the job and shows the ready panel |
| Lifecycle.StartGenerationKeepsAdmission | src/hooks/useImageAnalysis.ts:228-234 | the browser's start-generation write leaves admission as it was |
| Lifecycle.RetryNeedsConfirmation | supabase/functions/generate-3d/index.ts:57-64 | once generate-3d marked a job processing or failed, it is admitted again only if the user confirmed it |
| Lifecycle.Replay | supabase/functions/generate-3d/index.ts:57-200 | replaying writes never changes a row's id, owner or image |
| Lifecycle.AfterWritesReplays | supabase/functions/generate-3d/index.ts:57-200 | an edge function's writes land on the row as their replay |
| Lifecycle.OnlyApprovingWritesAdmit | supabase/functions/generate-3d/index.ts:50-54 | no sequence of writes admits a job unless one of them approves it |
| Lifecycle.RefusedJobStaysRefused | supabase/functions/generate-3d/index.ts:50-54 | a refused job stays refused through any non-approving writes |
| Lifecycle.GenerationOutcomeViews | src/pages/ModelReview.tsx:177-179 | a stored model is reviewable, a failure shows as failed with the credit flag cleared, and a processing job shows as generating |

## Left out

- Network I/O, the AI prompt, CORS preflight and logging are left out. The AI reply, JSON.parse, the Meshy replies, Stripe, the auth user list and each write's acceptance are parameters.
- AnalyzeImage.AnalysisOf: JSON.parse is taken to yield a complete analysis record or to fail. A reply that parses to null or a non-object (a 500 with the job left "analyzing", as `analysis.classification` throws outside the inner try) or to an object missing fields (verdict "pending", model type undefined) is not modelled.
- Jobs.NewRow: the inserts leave out `user_confirmed` (useImageAnalysis.ts) and `credits_consumed` (useFigurineJob.ts); the model fills both with false, the assumed column defaults, since the table schema is not part of this model.
- Generate3D.StyleFor: the preset lookup `STYLE_MAP[style] || "realistic"` would return an inherited property for a style such as "toString"; the preset is never sent, so the model maps every other style to realistic.
- Generate3D.ProviderResult: a 2xx task-creation reply whose body does not parse, or whose `result` is undefined, is not modelled; nor is a status reply whose body does not parse, which in the source ends polling at once and fails the run rather than using up one check.
- ImageAnalysisHook.ImageAnalysis.UploadAndAnalyze: the hook also returns the analysis from the invoke reply; the model returns only the job, since the wizard, its only caller, ignores the result.
- Generate3D.Poll: the 5-second sleep between checks is not modelled, only the order and number of checks.
- Generate3D.TryGenerate: a failed job read is not told apart from a missing row, since both throw "Job not found".
- Generate3D.GenerateRun: the catch block re-reads the request body with `req.clone()`, so whether its failure write lands is the parameter `failureWriteLands`.
- The `modelType` field of the generate-3d request is only logged and is not modelled.
- AnalysisResultStep: the quality percentage (floating point) and the icons and colours are not modelled.
- UploadPage.Page.HandleFile: the FileReader is asynchronous; the model sets the preview at once, from a parameter.
- UploadPage: the file-input handler is the drop handler's path without the drag flag, and is not modelled separately.
- Toast texts and console output are not modelled, only the errors returned or thrown.
- ModelReview: the 5-second interval and its clean-up are not modelled; one tick is one call.
- AuthContext: sign-up, sign-in and Google sign-in are foreign auth calls and are not modelled.
- AuthContext: the 60-second refresh interval is not modelled.
- AuthContext.AuthState.OnInitialSession: the getSession callback's deferred refresh is the mount render's, which reads a null session and resets the status to the default; the model runs it with the fetched session, the corrected form (the as-written reset is AuthContext.DeferredRefreshAsWritten).
- AuthContext.AuthState.OnAuthStateChange: the deferred refresh is run at once, in the corrected form.
- StripeWebhook.FindUser: listUsers returns its first page only, and the model searches the list it is given.
- Stripe's signature scheme is not modelled; verification is a parameter.
- The add_credits database function is not part of this model, only the calls made to it.
- Row-level security is not modelled.
- Concurrent requests and races between the browser and the edge functions are not modelled.

## Findings

| source | as written | input that shows it | evidently intended | confidence | as-written member | corrected member |
|---|---|---|---|---|---|---|
| src/pages/ModelReview.tsx:66-81 | the polling callback reads `job` from the render that created it; the effect depends only on `[jobId, navigate, toast]`, so the callback always sees `null` and never fetches | open the review page of a job with status "processing", which later completes | each tick reads the job on screen and replaces it once the row leaves "processing" | not executed | ModelReview.StaleClosureKeepsProcessing | ModelReview.CorrectedPollPicksUpCompletion |
| src/contexts/AuthContext.tsx:75-108 | the deferred `refreshSubscription()` in the listener and the getSession callback is the one from the mount render, where `session` is `null`, so it resets the status to the free default | sign in as a user whose check-subscription reply says plan "pro" | the refresh uses the session just received and shows the reply | not executed | AuthContext.SignInRefreshShowsFree | AuthContext.SignInShowsReply |
