/**
 * Entities, statuses and exceptions shared by the coordinator commands.
 *
 * The beans are values here: where a command changes a bean in place, the model
 * replaces it by an updated copy.
 */
module Oozie {

  datatype Option<+T> = None | Some(value: T)

  datatype Result<+T, +E> = Success(value: T) | Failure(error: E)

  /** What the store raises: an org.apache.oozie.XException carrying an error code. */
  datatype XException = XException(code: string)

  /** What the modelled commands and servlet raise. */
  datatype Error =
    | CommandException(code: string)
    | IllegalArgument(param: string)
    | XServletException(httpStatus: int, code: string)

  /** A command either completes or fails with an exception. */
  datatype Outcome = Pass | Fail(error: Error)

  /** `new CommandException(ex)` keeps the error code of the exception it wraps. */
  function AsCommandException(ex: XException): Error {
    CommandException(ex.code)
  }

  /** java.lang.Integer.MAX_VALUE */
  const INT_MAX: int := 0x7fff_ffff

  /** javax.servlet.http.HttpServletResponse.SC_BAD_REQUEST */
  const SC_BAD_REQUEST: int := 400

  /** CoordinatorAction.Status */
  datatype ActionStatus = WAITING | READY | SUBMITTED | RUNNING | SUCCEEDED | FAILED | KILLED

  /** WorkflowJob.Status */
  datatype WorkflowStatus = PREP | RUNNING | SUSPENDED | SUCCEEDED | FAILED | KILLED

  /** SLAEvent.Status */
  datatype SlaStatus = CREATED | STARTED | SUCCEEDED | FAILED | KILLED

  /** SLAEvent.SlaAppType */
  datatype SlaAppType = COORDINATOR_ACTION | COORDINATOR_JOB | WORKFLOW_JOB | WORKFLOW_ACTION

  /** The execution order of a coordinator job. */
  datatype Execution = FIFO | LIFO | LAST_ONLY

  /** CoordinatorActionBean: the fields the modelled commands read or write. */
  datatype CoordAction = CoordAction(
    id: string,
    jobId: string,
    status: ActionStatus,
    externalId: string,
    lastModifiedTime: int,
    slaXml: string)

  /** CoordinatorJobBean: the fields the modelled commands read or write. */
  datatype CoordJob = CoordJob(
    id: string,
    user: string,
    authToken: string,
    concurrency: int,
    execution: Execution,
    actions: seq<CoordAction>)

  /** WorkflowJobBean: the workflow whose status is reported back. */
  datatype WorkflowJob = WorkflowJob(id: string, status: WorkflowStatus)
}
