/** The figurine_jobs table: one row per submitted image, every write the core
    makes to a row (as a Patch), and the credits RPC the review page calls. */
module Jobs {
  import opened Wrappers

  type JobId = string
  type UserId = string

  /** The values the code writes to the two text columns `status` and
      `validation_status`. Generation writes both; the review page also
      writes "approved" and "rejected" to `status`. */
  datatype Phase =
    | Pending | Analyzing | Rejected | NeedsMoreImages | AwaitingConfirmation
    | Approved | Processing | Completed | Failed

  /** The AI's classification of an image, as parsed from its JSON reply.
      Confidence and quality score are carried, never computed with. */
  datatype Analysis = Analysis(
    classification: string,
    confidence: real,
    detectedObject: Option<string>,
    qualityScore: real,
    qualityIssues: seq<string>,
    needsAdditionalImages: bool,
    additionalImageRequest: Option<string>,
    rejectionReason: Option<string>,
    canProceed: bool,
    recommendation: string)

  datatype ModelUrls = ModelUrls(glb: Option<string>, obj: Option<string>)

  /** The `quality_report` column: the analysis, or the generation's diagnostics. */
  datatype Report =
    | NoReport
    | AnalysisReport(analysis: Analysis)
    | GenerationReport(meshyTaskId: string, modelUrls: Option<ModelUrls>,
                       textureUrls: Option<seq<string>>, createdAt: Option<int>, finishedAt: Option<int>)

  datatype Job = Job(
    id: JobId,
    userId: UserId,
    originalImageUrl: string,
    style: string,
    status: Phase,
    validationStatus: Phase,
    userConfirmed: bool,
    creditsConsumed: bool,
    modelType: Option<string>,
    additionalImages: Option<seq<string>>,
    qualityReport: Report,
    detectedObject: Option<string>,
    rejectionReason: Option<string>,
    modelUrl: Option<string>,
    previewUrl: Option<string>,
    errorMessage: Option<string>,
    createdAt: int)

  /** A freshly inserted row: the columns an insert names, and the column
      defaults (false, null, no report) for the rest. */
  function NewRow(id: JobId, userId: UserId, imageUrl: string, style: string, createdAt: int): (j: Job)
    ensures j.id == id && j.userId == userId && j.originalImageUrl == imageUrl && j.style == style
    ensures j.createdAt == createdAt
    ensures j.status == Pending && j.validationStatus == Pending && !j.userConfirmed && !j.creditsConsumed
    ensures j.modelUrl.None?
  {
    Job(id, userId, imageUrl, style, Pending, Pending, false, false, None, None, NoReport,
        None, None, None, None, None, createdAt)
  }

  /** Every update the core makes to a job row. */
  datatype Patch =
    | MarkAnalyzing
    | SaveAnalysis(modelType: Option<string>, verdict: Phase, detectedObject: Option<string>,
                   analysis: Analysis, rejectionReason: Option<string>)
    | MarkProcessing
    | MarkCompleted(modelUrl: Option<string>, previewUrl: Option<string>, report: Report)
    | MarkFailed(message: string)
    | ConfirmFallback
    | SetAdditionalImages(images: seq<string>)
    | StartGeneration
    | AcceptModel
    | RejectModel

  /** The row after one update. No update touches the identity, the owner,
      the image, the style or the creation time; only completion writes the
      model and preview URLs; only confirmation and review write user_confirmed. */
  function ApplyPatch(j: Job, p: Patch): (r: Job)
    ensures r.id == j.id && r.userId == j.userId && r.originalImageUrl == j.originalImageUrl
    ensures r.style == j.style && r.createdAt == j.createdAt
    ensures !p.MarkCompleted? ==> r.modelUrl == j.modelUrl && r.previewUrl == j.previewUrl
    ensures !(p.ConfirmFallback? || p.AcceptModel? || p.RejectModel?) ==> r.userConfirmed == j.userConfirmed
    ensures !(p.SetAdditionalImages?) ==> r.additionalImages == j.additionalImages
  {
    match p
    case MarkAnalyzing => j.(validationStatus := Analyzing)
    case SaveAnalysis(mt, v, obj, a, reason) =>
      j.(modelType := mt, validationStatus := v, detectedObject := obj,
         qualityReport := AnalysisReport(a), rejectionReason := reason, creditsConsumed := false)
    case MarkProcessing => j.(status := Processing, validationStatus := Processing, creditsConsumed := true)
    case MarkCompleted(m, pv, rep) =>
      j.(status := Completed, validationStatus := Completed, modelUrl := m, previewUrl := pv, qualityReport := rep)
    case MarkFailed(msg) =>
      j.(status := Failed, validationStatus := Failed, errorMessage := Some(msg), creditsConsumed := false)
    case ConfirmFallback => j.(userConfirmed := true, validationStatus := Approved)
    case SetAdditionalImages(imgs) => j.(additionalImages := Some(imgs), validationStatus := Approved)
    case StartGeneration => j.(status := Processing, creditsConsumed := true)
    case AcceptModel => j.(userConfirmed := true, status := Approved)
    case RejectModel => j.(userConfirmed := false, status := Rejected, rejectionReason := Some("User rejected the model"))
  }

  /** `update(...).eq("id", id)`: a matching row gets the patch; a failed write
      or an id that matches no row changes nothing (and the latter is no error). */
  function AfterUpdate(rows: map<JobId, Job>, id: JobId, p: Patch, ok: bool): (r: map<JobId, Job>)
    ensures r.Keys == rows.Keys
    ensures forall k :: k in rows && k != id ==> r[k] == rows[k]
    ensures ok && id in rows ==> r[id] == ApplyPatch(rows[id], p)
    ensures !ok ==> r == rows
  {
    if ok && id in rows then rows[id := ApplyPatch(rows[id], p)] else rows
  }

  /** Every row is stored under its own id. */
  ghost predicate KeyedById(rows: map<JobId, Job>) {
    forall k :: k in rows ==> rows[k].id == k
  }

  predicate NewestFirst(s: seq<Job>) {
    forall i, j :: 0 <= i < j < |s| ==> s[i].createdAt >= s[j].createdAt
  }

  /** `s` lists every row exactly once. */
  ghost predicate Lists(s: seq<Job>, rows: map<JobId, Job>) {
    && (forall i :: 0 <= i < |s| ==> s[i].id in rows && rows[s[i].id] == s[i])
    && (forall k :: k in rows ==> rows[k] in s)
    && DistinctIds(s)
  }

  /** Where a row created at `t` goes in a newest-first listing. */
  function InsertionPoint(s: seq<Job>, t: int): (p: nat)
    requires NewestFirst(s)
    ensures p <= |s|
    ensures forall i :: 0 <= i < p ==> s[i].createdAt >= t
    ensures forall i :: p <= i < |s| ==> s[i].createdAt < t
  {
    if s == [] || s[0].createdAt < t then 0 else 1 + InsertionPoint(s[1..], t)
  }

  class JobTable {
    var rows: map<JobId, Job>

    ghost predicate Valid()
      reads this
    {
      KeyedById(rows)
    }

    constructor ()
      ensures Valid() && rows == map[]
    {
      rows := map[];
    }

    /** `.update(patch).eq("id", id)`; `ok` says whether the database accepted the write. */
    method Update(id: JobId, p: Patch, ok: bool) returns (failed: bool)
      requires Valid()
      modifies this
      ensures Valid()
      ensures failed == !ok
      ensures rows == AfterUpdate(old(rows), id, p, ok)
    {
      rows := AfterUpdate(rows, id, p, ok);
      failed := !ok;
    }

    /** `.insert(row).select().single()`: fails on a write error or a taken id. */
    method Insert(row: Job, ok: bool) returns (inserted: Option<Job>)
      requires Valid()
      modifies this
      ensures Valid()
      ensures inserted == (if ok && row.id !in old(rows) then Some(row) else None)
      ensures rows == if inserted.Some? then old(rows)[row.id := row] else old(rows)
    {
      if ok && row.id !in rows {
        rows := rows[row.id := row];
        inserted := Some(row);
      } else {
        inserted := None;
      }
    }

    /** `.select("*").eq("id", id).single()`: the row, or nothing on an error or no match. */
    method Select(id: JobId, ok: bool) returns (found: Option<Job>)
      requires Valid()
      ensures found.Some? <==> ok && id in rows
      ensures found.Some? ==> found.value == rows[id] && found.value.id == id
    {
      found := if ok && id in rows then Some(rows[id]) else None;
    }

    /** `.select("*").order("created_at", { ascending: false })`: every row
        once, newest first; nothing when the query fails. */
    method SelectAllNewestFirst(ok: bool) returns (listing: seq<Job>)
      requires Valid()
      ensures !ok ==> listing == []
      ensures ok ==> NewestFirst(listing) && Lists(listing, rows)
    {
      listing := [];
      if !ok {
        return;
      }
      var todo := rows.Keys;
      while todo != {}
        invariant todo <= rows.Keys
        invariant NewestFirst(listing) && DistinctIds(listing)
        invariant forall x :: x in listing ==> x.id in rows && rows[x.id] == x && x.id !in todo
        invariant forall k :: k in rows && k !in todo ==> rows[k] in listing
        decreases todo
      {
        var k :| k in todo;
        var row := rows[k];
        var p := InsertionPoint(listing, row.createdAt);
        SpliceInOrder(listing, row, p);
        listing := listing[..p] + [row] + listing[p..];
        todo := todo - {k};
      }
    }
  }

  predicate DistinctIds(s: seq<Job>) {
    forall i, j :: 0 <= i < j < |s| ==> s[i].id != s[j].id
  }

  /** Putting a row with a new id at its insertion point keeps a listing
      newest-first and free of repeated ids, and adds exactly that row. */
  lemma SpliceInOrder(s: seq<Job>, row: Job, p: nat)
    requires NewestFirst(s) && DistinctIds(s)
    requires p == InsertionPoint(s, row.createdAt)
    requires forall x :: x in s ==> x.id != row.id
    ensures NewestFirst(s[..p] + [row] + s[p..]) && DistinctIds(s[..p] + [row] + s[p..])
    ensures forall x :: x in s[..p] + [row] + s[p..] <==> x in s || x == row
  {
    SpliceAt(s, row, p);
    var t := s[..p] + [row] + s[p..];
    forall i, j | 0 <= i < j < |t| ensures t[i].createdAt >= t[j].createdAt && t[i].id != t[j].id {
      if j < p || i > p {
      } else if i == p {
        assert t[j] == s[j - 1] && t[j] in s;
      } else if j == p {
        assert t[i] in s;
      }
    }
    SpliceMembers(s, row, p);
  }

  lemma SpliceAt(s: seq<Job>, row: Job, p: nat)
    requires p <= |s|
    ensures var t := s[..p] + [row] + s[p..];
      |t| == |s| + 1 && t[p] == row
      && (forall i :: 0 <= i < p ==> t[i] == s[i])
      && (forall i :: p < i < |t| ==> t[i] == s[i - 1])
  {
  }

  lemma SpliceMembers(s: seq<Job>, row: Job, p: nat)
    requires p <= |s|
    ensures forall x :: x in s[..p] + [row] + s[p..] <==> x in s || x == row
  {
    SpliceAt(s, row, p);
    var t := s[..p] + [row] + s[p..];
    forall x | x in s ensures x in t {
      var i :| 0 <= i < |s| && s[i] == x;
      if i < p { assert t[i] == x; } else { assert t[i + 1] == x; }
    }
    forall x | x in t ensures x in s || x == row {
      var i :| 0 <= i < |t| && t[i] == x;
      if i < p { assert s[i] == x; } else if i > p { assert s[i - 1] == x; }
    }
  }

  /** A call of the `add_credits` RPC. */
  datatype CreditCall = AddCreditsCall(userId: UserId, amount: int)

  /** Credits added to `user` by a sequence of RPC calls. */
  function Granted(calls: seq<CreditCall>, user: UserId): int {
    if calls == [] then 0
    else Granted(calls[..|calls| - 1], user)
         + (if calls[|calls| - 1].userId == user then calls[|calls| - 1].amount else 0)
  }

  /** The credit ledger as the core sees it: the RPC calls made to it. The
      balance arithmetic lives in the database function, which is not part of
      this model. */
  class Ledger {
    var calls: seq<CreditCall>

    constructor ()
      ensures calls == []
    {
      calls := [];
    }

    method AddCredits(user: UserId, amount: int)
      modifies this
      ensures calls == old(calls) + [AddCreditsCall(user, amount)]
      ensures Granted(calls, user) == Granted(old(calls), user) + amount
    {
      calls := calls + [AddCreditsCall(user, amount)];
      assert calls[..|calls| - 1] == old(calls);
    }
  }
}
