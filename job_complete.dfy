/** The job completion route (`POST /api/job-complete`): a signed-in user
    upserts `{ job_id, status, user_id, updated_at }` into `workflow_jobs`.
    The table's conflict key is taken to be `job_id`. */
module JobComplete {
  import opened Common

  datatype JobBody = JobBody(jobId: Option<string>, status: Option<string>)

  datatype JobRow = JobRow(status: string, userId: string, updatedAt: int)

  /** The upsert: the job's row becomes the caller's status and user id; every
      other job keeps its row. */
  function Upsert(rows: map<string, JobRow>, jobId: string, status: string, userId: string,
                  now: int): (r: map<string, JobRow>)
    ensures r.Keys == rows.Keys + {jobId}
    ensures r[jobId] == JobRow(status, userId, now)
    ensures forall k :: k in rows && k != jobId ==> r[k] == rows[k]
  {
    rows[jobId := JobRow(status, userId, now)]
  }

  /** No ownership check: any signed-in user's post replaces the owner of an
      existing job row. */
  lemma AnyUserTakesOverJob(rows: map<string, JobRow>, jobId: string, status: string, intruder: string, now: int)
    requires jobId in rows && rows[jobId].userId != intruder
    ensures Upsert(rows, jobId, status, intruder, now)[jobId].userId == intruder
  {
  }

  datatype Response =
    | Crash                              // destructuring a `null` body throws: 500
    | Error(code: int, error: string)
    | Done                               // 200 { ok: true }

  class WorkflowJobs {
    var rows: map<string, JobRow>

    constructor(rows0: map<string, JobRow>)
      ensures rows == rows0
    {
      rows := rows0;
    }

    /** `POST /api/job-complete`. `user` is the session's user id, if any;
        `upsertError` is the store's error, if any. */
    method Post(user: Option<string>, body: Parsed<JobBody>, now: int, upsertError: Option<string>)
      returns (res: Response)
      modifies this
      ensures user.None? ==> res == Error(401, "Unauthorized")
      ensures user.Some? && body.Invalid? ==> res == Error(400, "Invalid JSON")
      ensures user.Some? && body.Null? ==> res == Crash
      ensures user.Some? && body.Obj? && (!Truthy(body.value.jobId) || !Truthy(body.value.status)) ==>
                res == Error(400, "Missing jobId or status")
      ensures user.Some? && body.Obj? && Truthy(body.value.jobId) && Truthy(body.value.status) ==>
                res == (if upsertError.Some? then Error(500, upsertError.value) else Done)
      ensures res.Done? ==>
                rows == Upsert(old(rows), body.value.jobId.value, body.value.status.value, user.value, now)
      ensures !res.Done? ==> rows == old(rows)
    {
      if user.None? {
        return Error(401, "Unauthorized");
      }
      if body.Invalid? {
        return Error(400, "Invalid JSON");
      }
      if body.Null? {
        return Crash;
      }
      var JobBody(jobId, status) := body.value;
      if !Truthy(jobId) || !Truthy(status) {
        return Error(400, "Missing jobId or status");
      }
      if upsertError.Some? {
        return Error(500, upsertError.value);
      }
      rows := Upsert(rows, jobId.value, status.value, user.value, now);
      res := Done;
    }
  }
}
