/** The direct-generation upload page: file validation, the drag flag, the
    selection, and the generate button that uploads, creates the job and
    opens the preview. */
module UploadPage {
  import opened Wrappers
  import opened Text
  import opened Storage
  import opened Jobs
  import opened Invoke
  import opened FigurineJobHook

  const MaxFileSize: nat := 10 * 1024 * 1024

  datatype FileInfo = FileInfo(name: string, mimeType: string, size: nat)

  datatype FileCheck = Accepted | NotAnImage | TooLarge

  /** The MIME type is checked first, then the size; exactly 10 MiB passes. */
  function CheckFile(f: FileInfo): (c: FileCheck)
    ensures c == NotAnImage <==> !StartsWith(f.mimeType, "image/")
    ensures c == TooLarge <==> StartsWith(f.mimeType, "image/") && f.size > MaxFileSize
    ensures c == Accepted <==> StartsWith(f.mimeType, "image/") && f.size <= MaxFileSize
  {
    if !StartsWith(f.mimeType, "image/") then NotAnImage
    else if f.size > MaxFileSize then TooLarge
    else Accepted
  }

  /** The size limit is inclusive, and a large non-image is reported as the wrong type. */
  lemma SizeLimitBoundary(name: string, mimeType: string)
    requires StartsWith(mimeType, "image/")
    ensures CheckFile(FileInfo(name, mimeType, 10485760)) == Accepted
    ensures CheckFile(FileInfo(name, mimeType, 10485761)) == TooLarge
    ensures CheckFile(FileInfo(name, "application/pdf", 10485761)) == NotAnImage
  {
    assert "application/pdf"[..6] != "image/" by { assert "application/pdf"[0] != "image/"[0]; }
  }

  /** `navigate("/preview", { state: { jobId, style, image } })`. */
  datatype PreviewNavigation = PreviewNavigation(path: string, jobId: JobId, style: string, image: Option<string>)

  /** The outside world of one generate click. */
  datatype GenerateEnv = GenerateEnv(uuid: string, projectUrl: string, uploadOk: bool, create: CreateEnv)

  /** Where the selected file's upload lands. */
  function UploadedUrl(env: GenerateEnv, f: FileInfo): (url: string)
    ensures AfterLastDot(url) == AfterLastDot(f.name)
  {
    PublicUrlKeepsExtension(env.projectUrl, env.uuid, f.name);
    PublicUrl(env.projectUrl, UploadPath(env.uuid, f.name))
  }

  class Page {
    var dragActive: bool
    var selectedFile: Option<FileInfo>
    var preview: Option<string>
    var selectedStyle: Option<string>
    var navigatedTo: Option<PreviewNavigation>
    const jobs: FigurineJobs

    constructor (jobs: FigurineJobs)
      ensures this.jobs == jobs
      ensures !dragActive && selectedFile.None? && preview.None? && selectedStyle.None? && navigatedTo.None?
    {
      this.jobs := jobs;
      dragActive := false;
      selectedFile := None;
      preview := None;
      selectedStyle := None;
      navigatedTo := None;
    }

    predicate IsProcessing()
      reads this, jobs
    {
      jobs.isUploading || jobs.isGenerating
    }

    /** The generate button is disabled without a style or while processing. */
    predicate GenerateDisabled()
      reads this, jobs
    {
      selectedStyle.None? || IsProcessing()
    }

    method HandleDrag(eventType: string)
      modifies this`dragActive
      ensures eventType == "dragenter" || eventType == "dragover" ==> dragActive
      ensures eventType == "dragleave" ==> !dragActive
      ensures eventType !in {"dragenter", "dragover", "dragleave"} ==> dragActive == old(dragActive)
    {
      if eventType == "dragenter" || eventType == "dragover" {
        dragActive := true;
      } else if eventType == "dragleave" {
        dragActive := false;
      }
    }

    /** An accepted file is selected and its preview shown (`dataUrl` is what
        the FileReader produces); a rejected one changes nothing. */
    method HandleFile(f: FileInfo, dataUrl: string)
      modifies this`selectedFile, this`preview
      ensures CheckFile(f) == Accepted ==> selectedFile == Some(f) && preview == Some(dataUrl)
      ensures CheckFile(f) != Accepted ==> selectedFile == old(selectedFile) && preview == old(preview)
    {
      if !StartsWith(f.mimeType, "image/") {
        return;
      }
      if f.size > MaxFileSize {
        return;
      }
      selectedFile := Some(f);
      preview := Some(dataUrl);
    }

    /** A drop ends the drag and handles the first file, if any. */
    method HandleDrop(files: seq<FileInfo>, dataUrl: string)
      modifies this`dragActive, this`selectedFile, this`preview
      ensures !dragActive
      ensures |files| > 0 && CheckFile(files[0]) == Accepted ==> selectedFile == Some(files[0]) && preview == Some(dataUrl)
      ensures !(|files| > 0 && CheckFile(files[0]) == Accepted) ==>
                selectedFile == old(selectedFile) && preview == old(preview)
    {
      dragActive := false;
      if |files| > 0 {
        HandleFile(files[0], dataUrl);
      }
    }

    method SelectStyle(style: string)
      modifies this`selectedStyle
      ensures selectedStyle == Some(style)
    {
      selectedStyle := Some(style);
    }

    /** Uploads the selected file, creates the job, and opens the preview only
        when both steps succeed. Without a file and a style it does nothing. */
    method HandleGenerate(env: GenerateEnv)
      requires jobs.db.Valid()
      modifies this`navigatedTo, jobs, jobs.db
      ensures jobs.db.Valid()
      ensures selectedFile.None? || selectedStyle.None? || !env.uploadOk ==>
                jobs.db.rows == old(jobs.db.rows) && navigatedTo == old(navigatedTo)
      ensures selectedFile.Some? && selectedStyle.Some? && env.uploadOk ==>
                && jobs.db.rows == AfterCreate(old(jobs.db.rows), UploadedUrl(env, selectedFile.value),
                                               selectedStyle.value, env.create)
                && navigatedTo == if Inserts(old(jobs.db.rows), env.create) && env.create.invoke.InvokeOk?
                                  then Some(PreviewNavigation("/preview", env.create.newId, selectedStyle.value, preview))
                                  else old(navigatedTo)
    {
      if selectedFile.None? || selectedStyle.None? {
        return;
      }
      var file, style := selectedFile.value, selectedStyle.value;
      var imageUrl := jobs.UploadImage(file.name, env.uuid, env.projectUrl, env.uploadOk);
      if imageUrl.None? {
        return;
      }
      assert imageUrl.value == UploadedUrl(env, file);
      var job := jobs.CreateJob(imageUrl.value, style, env.create);
      if job.None? {
        return;
      }
      assert job.value.id == env.create.newId;
      navigatedTo := Some(PreviewNavigation("/preview", job.value.id, style, preview));
    }

    method ClearSelection()
      modifies this`selectedFile, this`preview, this`selectedStyle
      ensures selectedFile.None? && preview.None? && selectedStyle.None?
    {
      selectedFile, preview, selectedStyle := None, None, None;
    }
  }
}
