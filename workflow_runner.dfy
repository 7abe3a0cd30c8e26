/** The job status poller of the `WorkflowRunner` component. One run of its
    effect polls `/api/status/{jobId}`: a reply with a status other than
    'completed' or 'failed' schedules the next poll in 2 s, a failed fetch in
    4 s; the effect's cleanup sets `cancelled` and clears the pending timer.
    React's state setters, the timer and the fetch become discrete events. */
module WorkflowRunner {
  import opened Common

  const StatusRetryMs := 2000
  const ErrorRetryMs := 4000

  /** The statuses that end polling. */
  predicate Terminal(s: string) {
    s == "completed" || s == "failed"
  }

  /** Where the poll loop stands: not polling, a fetch outstanding, a timer
      pending with its delay, or stopped on a terminal status. */
  datatype Phase = Idle | InFlight | Waiting(delayMs: nat) | Done

  /** The body of a successful status reply; `jobStatus` is `json.job?.status`. */
  datatype JobJson = JobJson(jobStatus: Option<string>)

  /** How one fetch ends: it throws (network error, non-2xx or a body that is
      not JSON) with a message, or yields the JSON. */
  datatype Reply = Failure(message: string) | Ok(json: JobJson)

  datatype Event =
    | Arrive(reply: Reply)   // the outstanding fetch settles
    | TimerFired             // the pending `setTimeout` runs `tick`
    | Cleanup                // the effect's cleanup (unmount)
    | Refresh                // the Refresh button

  /** The component's state (`status`, `error`, `detail`) and the effect's
      (`cancelled`, the loop's phase). */
  datatype RunnerState = RunnerState(phase: Phase, status: Option<string>, error: Option<string>,
                                     detail: Option<JobJson>, cancelled: bool)

  /** The effect's first run: nothing happens for an empty job id, otherwise
      the first `tick` starts a fetch at once. */
  function Start(jobId: string): (s: RunnerState)
    ensures s.phase == (if jobId == "" then Idle else InFlight)
    ensures s.status.None? && s.error.None? && s.detail.None? && !s.cancelled
  {
    RunnerState(if jobId == "" then Idle else InFlight, None, None, None, false)
  }

  /** `json.job?.status || 'unknown'`. */
  function ShownStatus(json: JobJson): (s: string)
    ensures s != ""
    ensures Truthy(json.jobStatus) ==> s == json.jobStatus.value
    ensures !Truthy(json.jobStatus) ==> s == "unknown"
  {
    OrElse(json.jobStatus, Some("unknown")).value
  }

  /** One event. */
  function Step(st: RunnerState, e: Event): (r: RunnerState)
    ensures r.cancelled == (st.cancelled || e.Cleanup?)
    // a fetch settling after cancellation only ends that tick
    ensures e.Arrive? && st.phase.InFlight? && st.cancelled ==> r == st.(phase := Idle)
    ensures e.Arrive? && st.phase.InFlight? && !st.cancelled && e.reply.Failure? ==>
              r == st.(phase := Waiting(ErrorRetryMs), error := Some(e.reply.message))
    ensures e.Arrive? && st.phase.InFlight? && !st.cancelled && e.reply.Ok? ==>
              && r.detail == Some(e.reply.json)
              && r.status == Some(ShownStatus(e.reply.json))
              && r.error == st.error
              && (r.phase.Done? <==> Terminal(ShownStatus(e.reply.json)))
              && (!r.phase.Done? ==> r.phase == Waiting(StatusRetryMs))
    // only a pending timer starts a fetch
    ensures r.phase.InFlight? ==> st.phase.InFlight? || (st.phase.Waiting? && e.TimerFired?)
    ensures e.TimerFired? && st.phase.Waiting? ==> r == st.(phase := InFlight)
    // cleanup clears a pending timer and changes nothing shown
    ensures e.Cleanup? ==>
              r == st.(cancelled := true, phase := if st.phase.Waiting? then Idle else st.phase)
    ensures e.Refresh? ==> r == st.(status := None, error := None, detail := None)
  {
    match e
    case Arrive(reply) =>
      if !st.phase.InFlight? then st
      else if st.cancelled then st.(phase := Idle)
      else if reply.Failure? then st.(phase := Waiting(ErrorRetryMs), error := Some(reply.message))
      else
        var s := ShownStatus(reply.json);
        st.(detail := Some(reply.json), status := Some(s), phase := if Terminal(s) then Done else Waiting(StatusRetryMs))
    case TimerFired =>
      if st.phase.Waiting? then st.(phase := InFlight) else st
    case Cleanup =>
      st.(cancelled := true, phase := if st.phase.Waiting? then Idle else st.phase)
    case Refresh =>
      st.(status := None, error := None, detail := None)
  }

  /** A sequence of events, in order. */
  function Run(st: RunnerState, es: seq<Event>): RunnerState
    decreases |es|
  {
    if es == [] then st else Run(Step(st, es[0]), es[1..])
  }

  /** With an empty job id nothing is ever fetched and nothing is ever shown. */
  lemma {:induction false} EmptyJobNeverPolls(es: seq<Event>)
    ensures var r := Run(Start(""), es);
            r.phase == Idle && r.status.None? && r.error.None? && r.detail.None?
  {
    var st := Start("");
    var rest := es;
    while rest != []
      invariant Run(Start(""), es) == Run(st, rest)
      invariant st.phase == Idle && st.status.None? && st.error.None? && st.detail.None?
      decreases |rest|
    {
      st, rest := Step(st, rest[0]), rest[1..];
    }
  }

  /** After cancellation no event but Refresh changes what is shown, no timer
      is pending and no new fetch starts. */
  lemma {:induction false} CancelledIsInert(st: RunnerState, es: seq<Event>)
    requires st.cancelled && !st.phase.Waiting?
    requires forall i :: 0 <= i < |es| ==> !es[i].Refresh?
    decreases |es|
    ensures var r := Run(st, es);
            && r.status == st.status && r.error == st.error && r.detail == st.detail
            && r.cancelled && !r.phase.Waiting?
            && (r.phase.InFlight? ==> st.phase.InFlight?)
  {
    if es != [] {
      CancelledIsInert(Step(st, es[0]), es[1..]);
    }
  }

  /** Once a terminal status is shown the loop never resumes; the Refresh
      button clears the display but does not restart polling either. */
  lemma {:induction false} DoneIsFinal(st: RunnerState, es: seq<Event>)
    requires st.phase.Done?
    ensures Run(st, es).phase.Done?
    decreases |es|
  {
    if es != [] {
      DoneIsFinal(Step(st, es[0]), es[1..]);
    }
  }

  /** A failed poll's message stays shown after later successful polls. */
  lemma ErrorSurvivesSuccess(st: RunnerState, message: string, json: JobJson)
    requires st.phase.InFlight? && !st.cancelled && !Terminal(ShownStatus(json))
    ensures Run(st, [Arrive(Failure(message)), TimerFired, Arrive(Ok(json))]).error == Some(message)
  {
    var es := [Arrive(Failure(message)), TimerFired, Arrive(Ok(json))];
    var s1 := Step(st, es[0]);
    var s2 := Step(s1, es[1]);
    var s3 := Step(s2, es[2]);
    assert Run(st, es) == Run(s1, es[1..]);
    assert Run(s1, es[1..]) == Run(s2, es[1..][1..]);
    assert Run(s2, es[1..][1..]) == Run(s3, es[1..][1..][1..]);
    assert es[1..][1..][1..] == [];
  }

  /** One non-terminal round: the reply, then the timer. */
  function Rounds(json: JobJson, n: nat): (es: seq<Event>)
    ensures |es| == 2 * n
  {
    if n == 0 then [] else [Arrive(Ok(json)), TimerFired] + Rounds(json, n - 1)
  }

  /** Nothing bounds the polling: however many non-terminal replies arrive,
      another fetch is in flight afterwards. */
  lemma {:induction false} PollingIsUnbounded(st: RunnerState, json: JobJson, n: nat)
    requires st.phase.InFlight? && !st.cancelled && !Terminal(ShownStatus(json))
    ensures Run(st, Rounds(json, n)).phase.InFlight?
    ensures n > 0 ==> Run(st, Rounds(json, n)).status == Some(ShownStatus(json))
    decreases n
  {
    if n > 0 {
      var es := Rounds(json, n);
      var mid := Step(Step(st, Arrive(Ok(json))), TimerFired);
      assert es[1..][1..] == Rounds(json, n - 1);
      assert Run(st, es) == Run(mid, Rounds(json, n - 1));
      PollingIsUnbounded(mid, json, n - 1);
      if n - 1 == 0 {
        assert Run(mid, Rounds(json, n - 1)) == mid;
      }
    }
  }

  /** The component: React state plus the effect's `cancelled` flag and timer. */
  class Runner {
    var phase: Phase
    var status: Option<string>
    var error: Option<string>
    var detail: Option<JobJson>
    var cancelled: bool

    function State(): RunnerState
      reads this
    {
      RunnerState(phase, status, error, detail, cancelled)
    }

    /** Mount with `jobId`: the effect runs once. */
    constructor(jobId: string)
      ensures State() == Start(jobId)
    {
      phase := if jobId == "" then Idle else InFlight;
      status, error, detail := None, None, None;
      cancelled := false;
    }

    /** The rest of `tick` once its fetch settles. */
    method OnReply(reply: Reply)
      modifies this
      ensures State() == Step(old(State()), Arrive(reply))
    {
      if !phase.InFlight? {
        return;
      }
      if cancelled {
        phase := Idle;
        return;
      }
      match reply
      case Failure(message) =>
        error := Some(message);
        phase := Waiting(ErrorRetryMs);
      case Ok(json) =>
        detail := Some(json);
        var s := ShownStatus(json);
        status := Some(s);
        if Terminal(s) {
          phase := Done;
          return;
        }
        phase := Waiting(StatusRetryMs);
    }

    /** The pending timer runs `tick`, which starts the next fetch. */
    method OnTimer()
      modifies this
      ensures State() == Step(old(State()), TimerFired)
    {
      if phase.Waiting? {
        phase := InFlight;
      }
    }

    /** The effect's cleanup. */
    method OnCleanup()
      modifies this
      ensures State() == Step(old(State()), Cleanup)
    {
      cancelled := true;
      if phase.Waiting? {
        phase := Idle;
      }
    }

    /** The Refresh button's handler. */
    method OnRefresh()
      modifies this
      ensures State() == Step(old(State()), Refresh)
    {
      status, error, detail := None, None, None;
    }

    /** Deliver the events in order. */
    method Drive(es: seq<Event>)
      modifies this
      ensures State() == Run(old(State()), es)
    {
      var i := 0;
      while i < |es|
        invariant 0 <= i <= |es|
        decreases |es| - i
        invariant Run(old(State()), es) == Run(State(), es[i..])
      {
        assert es[i..][1..] == es[i + 1..];
        match es[i] {
          case Arrive(reply) => OnReply(reply);
          case TimerFired => OnTimer();
          case Cleanup => OnCleanup();
          case Refresh => OnRefresh();
        }
        i := i + 1;
      }
    }
  }
}
