/** Calling an edge function from the browser with `supabase.functions.invoke`:
    the error it reports, and the writes the function made to one job row
    before answering. What the function decides is not modelled here; its
    writes are given. */
module Invoke {
  import opened Jobs

  /** What `supabase.functions.invoke` reports back. */
  datatype InvokeResult = InvokeOk | InvokeError(message: string)

  /** The table after an edge function applied `writes`, in order, to row `id`. */
  function AfterWrites(rows: map<JobId, Job>, id: JobId, writes: seq<Patch>): (r: map<JobId, Job>)
    ensures r.Keys == rows.Keys
    ensures forall k :: k in rows && k != id ==> r[k] == rows[k]
  {
    if writes == [] then rows
    else AfterUpdate(AfterWrites(rows, id, writes[..|writes| - 1]), id, writes[|writes| - 1], true)
  }

  /** No write an edge function makes moves a row to another owner, image or style. */
  lemma {:induction false} AfterWritesKeepsIdentity(rows: map<JobId, Job>, id: JobId, writes: seq<Patch>)
    requires id in rows
    ensures var r := AfterWrites(rows, id, writes);
      && r[id].id == rows[id].id && r[id].userId == rows[id].userId
      && r[id].originalImageUrl == rows[id].originalImageUrl && r[id].style == rows[id].style
  {
    if writes != [] {
      AfterWritesKeepsIdentity(rows, id, writes[..|writes| - 1]);
    }
  }

  /** The invoked function's writes to row `id`, one after another. */
  method RunWrites(db: JobTable, id: JobId, writes: seq<Patch>)
    requires db.Valid()
    modifies db
    ensures db.Valid()
    ensures db.rows == AfterWrites(old(db.rows), id, writes)
  {
    ghost var start := db.rows;
    var i := 0;
    while i < |writes|
      invariant 0 <= i <= |writes|
      invariant db.Valid()
      invariant db.rows == AfterWrites(start, id, writes[..i])
    {
      assert writes[..i + 1][..i] == writes[..i];
      var _ := db.Update(id, writes[i], true);
      i := i + 1;
    }
    assert writes[..i] == writes;
  }
}
