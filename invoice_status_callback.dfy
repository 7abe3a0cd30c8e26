/** The unsigned status callback (`POST /api/status/status-callback`): upsert
    `{ job_id, status, pdf_url, updated_at }` into `invoice_status`, keyed on
    `job_id`. Any status is accepted and simply overwrites the stored one. */
module InvoiceStatusCallback {
  import opened Common

  /** The JSON body `{ jobId, status, pdfUrl? }`. */
  datatype StatusBody = StatusBody(jobId: Option<string>, status: Option<string>, pdfUrl: Option<string>)

  datatype StatusRow = StatusRow(status: string, pdfUrl: Option<string>, updatedAt: int)

  /** `upsert(..., { onConflict: 'job_id' })`: insert the row when the job is
      new, overwrite it when it exists; every other job keeps its row. */
  function Upsert(rows: map<string, StatusRow>, jobId: string, status: string,
                  pdfUrl: Option<string>, now: int): (r: map<string, StatusRow>)
    ensures r.Keys == rows.Keys + {jobId}
    ensures r[jobId] == StatusRow(status, pdfUrl, now)
    ensures forall k :: k in rows && k != jobId ==> r[k] == rows[k]
  {
    rows[jobId := StatusRow(status, pdfUrl, now)]
  }

  /** The stored status is always the last one posted: nothing stops a "sent"
      job from going back to "queued". */
  lemma LastWriteWins(rows: map<string, StatusRow>, jobId: string, s1: string, s2: string,
                      p1: Option<string>, p2: Option<string>, t1: int, t2: int)
    ensures Upsert(Upsert(rows, jobId, s1, p1, t1), jobId, s2, p2, t2) == Upsert(rows, jobId, s2, p2, t2)
  {
  }

  /** Upserts for different jobs commute. */
  lemma {:induction false} DistinctJobsCommute(rows: map<string, StatusRow>, j1: string, j2: string,
                                               s1: string, s2: string, p1: Option<string>, p2: Option<string>,
                                               t1: int, t2: int)
    requires j1 != j2
    ensures Upsert(Upsert(rows, j1, s1, p1, t1), j2, s2, p2, t2)
            == Upsert(Upsert(rows, j2, s2, p2, t2), j1, s1, p1, t1)
  {
    var a := Upsert(Upsert(rows, j1, s1, p1, t1), j2, s2, p2, t2);
    var b := Upsert(Upsert(rows, j2, s2, p2, t2), j1, s1, p1, t1);
    assert a.Keys == b.Keys;
    assert forall k :: k in a ==> a[k] == b[k];
  }

  datatype Response =
    | Crash                              // destructuring a `null` body throws: 500
    | Error(code: int, error: string)
    | Success                            // 200 { success: true }

  class InvoiceStatusTable {
    var rows: map<string, StatusRow>

    constructor(rows0: map<string, StatusRow>)
      ensures rows == rows0
    {
      rows := rows0;
    }

    /** `POST /api/status/status-callback` at instant `now`; `upsertError` is the
        store's error, if any. */
    method Post(body: Parsed<StatusBody>, now: int, upsertError: Option<string>) returns (res: Response)
      modifies this
      ensures body.Invalid? ==> res == Error(400, "Invalid JSON")
      ensures body.Null? ==> res == Crash
      ensures body.Obj? && (!Truthy(body.value.jobId) || !Truthy(body.value.status)) ==>
                res == Error(400, "Missing jobId or status")
      ensures body.Obj? && Truthy(body.value.jobId) && Truthy(body.value.status) ==>
                res == (if upsertError.Some? then Error(500, upsertError.value) else Success)
      ensures res.Success? ==>
                rows == Upsert(old(rows), body.value.jobId.value, body.value.status.value, body.value.pdfUrl, now)
      ensures !res.Success? ==> rows == old(rows)
    {
      if body.Invalid? {
        return Error(400, "Invalid JSON");
      }
      if body.Null? {
        return Crash;
      }
      var StatusBody(jobId, status, pdfUrl) := body.value;
      if !Truthy(jobId) || !Truthy(status) {
        return Error(400, "Missing jobId or status");
      }
      if upsertError.Some? {
        return Error(500, upsertError.value);
      }
      rows := Upsert(rows, jobId.value, status.value, pdfUrl, now);
      res := Success;
    }
  }
}
