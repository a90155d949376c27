/**
 * V0JobsServlet: the version 0 jobs endpoint. The model keeps the parameter checks and
 * defaults the servlet applies before it calls the workflow engine, and how it reports
 * the engine's errors; the engine's answers are given by a `DagEngine` value.
 */
module JobsServlet {
  import opened Oozie

  /** RestConstants.JOB_ACTION_START: the one value the `action` parameter of a submit may take. */
  const JOB_ACTION_START: string := "start"

  const E0303: string := "E0303"

  const DEFAULT_OFFSET: int := 1
  const DEFAULT_LEN: int := 50

  /** WorkflowsInfo: one page of workflow jobs and where it lies in the full list. */
  datatype WorkflowsInfo = WorkflowsInfo(workflows: seq<WorkflowJob>, start: int, len: int, total: int)

  /** The DagXEngine of the requesting user; a failure is the DagEngineException it raises. */
  datatype DagEngine = DagEngine(
    submitJob: (map<string, string>, bool) -> Result<string, XException>,
    getJobs: (Option<string>, int, int) -> Result<WorkflowsInfo, XException>,
    getJobIdForExternalId: string -> Result<string, XException>)

  /** `new XServletException(SC_BAD_REQUEST, ex)` keeps the engine's error code. */
  function AsBadRequest(ex: XException): (e: Error)
    ensures e.XServletException? && e.httpStatus == SC_BAD_REQUEST && e.code == ex.code
  {
    XServletException(SC_BAD_REQUEST, ex.code)
  }

  function Reported<T>(r: Result<T, XException>): (s: Result<T, Error>)
    ensures s.Success? <==> r.Success?
    ensures s.Success? ==> s.value == r.value
    ensures s.Failure? ==> s.error == AsBadRequest(r.error)
  {
    match r
    case Success(v) => Success(v)
    case Failure(ex) => Failure(AsBadRequest(ex))
  }

  /** Whether a submit also starts the job; any `action` other than "start" is a bad request. */
  function StartJob(action: Option<string>): (r: Result<bool, Error>)
    ensures r.Failure? <==> action.Some? && action.value != JOB_ACTION_START
    ensures r.Failure? ==> r.error == XServletException(SC_BAD_REQUEST, E0303)
    ensures r.Success? ==> (r.value <==> action.Some?)
  {
    if action.Some? && action.value != JOB_ACTION_START then Failure(XServletException(SC_BAD_REQUEST, E0303))
    else Success(action.Some?)
  }

  /** The `offset` parameter, parsed: absent means 1 and anything below 1 is raised to 1. */
  function Offset(param: Option<int>): (start: int)
    ensures start >= 1
    ensures param.Some? && param.value >= 1 ==> start == param.value
    ensures param.None? || param.value < 1 ==> start == DEFAULT_OFFSET
  {
    var start := if param.Some? then param.value else DEFAULT_OFFSET;
    if start < 1 then 1 else start
  }

  /** The `len` parameter, parsed: absent means 50 and anything below 1 also means 50. */
  function Len(param: Option<int>): (len: int)
    ensures len >= 1
    ensures param.Some? && param.value >= 1 ==> len == param.value
    ensures param.None? || param.value < 1 ==> len == DEFAULT_LEN
  {
    var len := if param.Some? then param.value else DEFAULT_LEN;
    if len < 1 then DEFAULT_LEN else len
  }

  /** submitJob: the id of the submitted job, which is started when `action` is given. */
  function SubmitJob(action: Option<string>, conf: map<string, string>, engine: DagEngine): (r: Result<string, Error>)
    ensures StartJob(action).Failure? ==> r == Failure(StartJob(action).error)
    ensures StartJob(action).Success? ==> r == Reported(engine.submitJob(conf, action.Some?))
  {
    match StartJob(action)
    case Failure(e) => Failure(e)
    case Success(startJob) => Reported(engine.submitJob(conf, startJob))
  }

  /** getJobIdForExternalId: the id of the workflow job behind an external id. */
  function JobIdForExternalId(externalId: string, engine: DagEngine): (r: Result<string, Error>)
    ensures r.Success? <==> engine.getJobIdForExternalId(externalId).Success?
    ensures r.Success? ==> r.value == engine.getJobIdForExternalId(externalId).value
    ensures r.Failure? ==> r.error == AsBadRequest(engine.getJobIdForExternalId(externalId).error)
  {
    Reported(engine.getJobIdForExternalId(externalId))
  }

  /** getJobs: one page of the workflow jobs that pass `filter`. */
  function GetJobs(filter: Option<string>, offset: Option<int>, len: Option<int>, engine: DagEngine): (r: Result<WorkflowsInfo, Error>)
    ensures r.Success? <==> engine.getJobs(filter, Offset(offset), Len(len)).Success?
    ensures r.Success? ==> r.value == engine.getJobs(filter, Offset(offset), Len(len)).value
    ensures r.Failure? ==> r.error == AsBadRequest(engine.getJobs(filter, Offset(offset), Len(len)).error)
  {
    Reported(engine.getJobs(filter, Offset(offset), Len(len)))
  }

  // ---------------------------------------------------------------------------
  // What the servlet promises.

  /** A submit with a bad `action` never reaches the engine: its answer is the same whatever the engine does. */
  lemma BadActionNeverSubmits(action: Option<string>, conf: map<string, string>, engine: DagEngine, other: DagEngine)
    requires action.Some? && action.value != JOB_ACTION_START
    ensures SubmitJob(action, conf, engine) == SubmitJob(action, conf, other)
    ensures SubmitJob(action, conf, engine) == Failure(XServletException(SC_BAD_REQUEST, E0303))
  {
  }

  /** The engine is only ever asked for a page with an offset and a length of at least 1, and its failures are bad requests. */
  lemma {:induction false} GetJobsAsksInRange(filter: Option<string>, offset: Option<int>, len: Option<int>, engine: DagEngine)
    ensures exists o, l :: o >= 1 && l >= 1 && GetJobs(filter, offset, len, engine) == Reported(engine.getJobs(filter, o, l))
    ensures GetJobs(filter, offset, len, engine).Failure? ==>
      GetJobs(filter, offset, len, engine).error.XServletException? &&
      GetJobs(filter, offset, len, engine).error.httpStatus == SC_BAD_REQUEST
  {
    var o, l := Offset(offset), Len(len);
    assert GetJobs(filter, offset, len, engine) == Reported(engine.getJobs(filter, o, l));
  }

  /** A value below 1 is treated as if the parameter were absent: the offset then starts at 1, the length is 50, not 1. */
  lemma BelowOneIsAbsent(filter: Option<string>, offset: int, len: int, engine: DagEngine)
    ensures offset < 1 ==> forall l :: GetJobs(filter, Some(offset), l, engine) == GetJobs(filter, None, l, engine)
    ensures len < 1 ==> forall o :: GetJobs(filter, o, Some(len), engine) == GetJobs(filter, o, None, engine)
    ensures len < 1 ==> Len(Some(len)) == 50 != Len(Some(1))
  {
  }

  /** Values already in range pass through, and normalising a normalised window changes nothing. */
  lemma {:induction false} NormalisingIsIdempotent(offset: Option<int>, len: Option<int>)
    ensures Offset(Some(Offset(offset))) == Offset(offset)
    ensures Len(Some(Len(len))) == Len(len)
  {
    var o, l := Offset(offset), Len(len);
    assert o >= 1 && l >= 1;
  }
}
