/** The job service's HTTP handler: how each request is answered, in terms
    of the controller's outcome. The controller is an oracle; a response
    records its status code, its payload and which controller operation, if
    any, was invoked. Writing to the connection and logging are left out.
    The payload of a successful JSON answer is the object itself; a failing
    JSON encoding is not modelled. */
module JobServiceApi {
  import opened Wrappers
  import opened Text

  datatype JobRequest = JobRequest(name: string, parameters: map<string, string>)
  datatype JobStats = JobStats(jobId: string, status: string)
  datatype PoolStats = PoolStats(pools: seq<string>)
  datatype JobActionRequest = JobActionRequest(action: string)

  /** The controller's error kinds that the handler tells apart. */
  datatype ErrClass = NotFound | Conflict | General
  datatype CtlError = CtlError(errClass: ErrClass, message: string)

  /** The core.Interface controller, by its outcome for each input. */
  datatype Controller = Controller(
    launchJob: JobRequest -> Result<JobStats, CtlError>,
    getJob: string -> Result<JobStats, CtlError>,
    stopJob: string -> Option<CtlError>,
    retryJob: string -> Option<CtlError>,
    cancelJob: string -> Option<CtlError>,
    checkStatus: Result<PoolStats, CtlError>,
    getJobLogData: string -> Result<seq<bv8>, CtlError>)

  /** The handler holds a possibly nil controller. */
  datatype Handler = Handler(controller: Option<Controller>)

  /** A request body: unreadable, not valid JSON, or decoded. */
  datatype Body<T> = Unreadable(readError: string) | Malformed(jsonError: string) | Decoded(value: T)

  /** The errors the handler builds itself, each wrapping a message. */
  datatype ErrKind =
    | MissingBackendHandler | ReadRequestBody | HandleJsonData
    | LaunchJobFailed | GetJobStatsFailed | StopJobFailed | CancelJobFailed | RetryJobFailed
    | UnknownActionName | CheckStatsFailed | GetJobLogFailed | InvalidJobId

  datatype Payload =
    | Empty
    | StatsBody(stats: JobStats)
    | PoolStatsBody(poolStats: PoolStats)
    | LogBody(data: seq<bv8>)
    | ControllerError(err: CtlError)
    | HandlerError(kind: ErrKind, cause: string)

  /** The controller operation a request led to. */
  datatype Call =
    | LaunchCall(req: JobRequest) | GetJobCall(id: string) | StopCall(id: string)
    | CancelCall(id: string) | RetryCall(id: string) | CheckStatusCall | LogCall(id: string)

  datatype Response = Response(code: int, payload: Payload, called: Option<Call>)

  const StatusOK := 200
  const StatusAccepted := 202
  const StatusNoContent := 204
  const StatusBadRequest := 400
  const StatusNotFound := 404
  const StatusConflict := 409
  const StatusInternalServerError := 500
  const StatusNotImplemented := 501

  /** The action names of the job control commands. */
  const CtlCommandStop := "stop"
  const CtlCommandCancel := "cancel"
  const CtlCommandRetry := "retry"

  /** The separator of the job service's file system paths. */
  const PathSeparator: char := '/'

  // ---------------------------------------------------------------------
  // Shared rules
  // ---------------------------------------------------------------------

  function NilControllerResponse(): Response {
    Response(StatusInternalServerError, HandlerError(MissingBackendHandler, "nil controller"), None)
  }

  /** The answer to a request whose body could not be read or decoded: a
      server error in both cases. */
  function BodyErrorResponse<T>(body: Body<T>): (r: Response)
    requires !body.Decoded?
    ensures r.code == StatusInternalServerError && r.called == None
  {
    match body
    case Unreadable(e) => Response(StatusInternalServerError, HandlerError(ReadRequestBody, e), None)
    case Malformed(e) => Response(StatusInternalServerError, HandlerError(HandleJsonData, e), None)
  }

  /** The failure answer of a job lookup: 404 with the controller's own
      error when the job is not found, else 500 with the error wrapped. */
  function LookupErrorResponse(err: CtlError, wrap: ErrKind, call: Call): (r: Response)
    ensures r.called == Some(call)
    ensures err.errClass == NotFound ==> r.code == StatusNotFound && r.payload == ControllerError(err)
    ensures err.errClass != NotFound ==>
              r.code == StatusInternalServerError && r.payload == HandlerError(wrap, err.message)
  {
    if err.errClass == NotFound then Response(StatusNotFound, ControllerError(err), Some(call))
    else Response(StatusInternalServerError, HandlerError(wrap, err.message), Some(call))
  }

  // ---------------------------------------------------------------------
  // The handlers
  // ---------------------------------------------------------------------

  /** POST a job: 202 with its stats, 409 with the controller's error on a
      conflict, 500 on any other failure. */
  function HandleLaunchJob(h: Handler, body: Body<JobRequest>): (r: Response)
    ensures h.controller.Some? && body.Decoded? ==>
              var out := h.controller.value.launchJob(body.value);
              && r.called == Some(LaunchCall(body.value))
              && (out.Ok? ==> r.code == StatusAccepted && r.payload == StatsBody(out.value))
              && (out.Err? && out.error.errClass == Conflict ==>
                    r.code == StatusConflict && r.payload == ControllerError(out.error))
              && (out.Err? && out.error.errClass != Conflict ==>
                    r.code == StatusInternalServerError && r.payload == HandlerError(LaunchJobFailed, out.error.message))
  {
    match h.controller
    case None => NilControllerResponse()
    case Some(ctl) =>
      if !body.Decoded? then BodyErrorResponse(body)
      else
        match ctl.launchJob(body.value)
        case Ok(stats) => Response(StatusAccepted, StatsBody(stats), Some(LaunchCall(body.value)))
        case Err(e) =>
          if e.errClass == Conflict then Response(StatusConflict, ControllerError(e), Some(LaunchCall(body.value)))
          else Response(StatusInternalServerError, HandlerError(LaunchJobFailed, e.message), Some(LaunchCall(body.value)))
  }

  /** GET a job's stats: 200 with them, or the lookup failure. */
  function HandleGetJob(h: Handler, jobId: string): (r: Response)
    ensures h.controller.Some? ==>
              var out := h.controller.value.getJob(jobId);
              && (out.Ok? ==> r == Response(StatusOK, StatsBody(out.value), Some(GetJobCall(jobId))))
              && (out.Err? ==> r == LookupErrorResponse(out.error, GetJobStatsFailed, GetJobCall(jobId)))
  {
    match h.controller
    case None => NilControllerResponse()
    case Some(ctl) =>
      match ctl.getJob(jobId)
      case Ok(stats) => Response(StatusOK, StatsBody(stats), Some(GetJobCall(jobId)))
      case Err(e) => LookupErrorResponse(e, GetJobStatsFailed, GetJobCall(jobId))
  }

  /** The result of one control command, as the switch runs it. */
  function ControlOutcome(ctl: Controller, action: string, jobId: string): Option<(Call, ErrKind, Option<CtlError>)> {
    if action == CtlCommandStop then Some((StopCall(jobId), StopJobFailed, ctl.stopJob(jobId)))
    else if action == CtlCommandCancel then Some((CancelCall(jobId), CancelJobFailed, ctl.cancelJob(jobId)))
    else if action == CtlCommandRetry then Some((RetryCall(jobId), RetryJobFailed, ctl.retryJob(jobId)))
    else None
  }

  /** POST an action on a job: "stop", "cancel" or "retry" runs the matching
      command and answers 204 with no body, or the lookup failure; any other
      name answers 501 without touching the controller. The 501 error
      carries the job ID. */
  function HandleJobAction(h: Handler, jobId: string, body: Body<JobActionRequest>): (r: Response)
    ensures h.controller.Some? && body.Decoded? ==>
              var action := body.value.action;
              && (action != CtlCommandStop && action != CtlCommandCancel && action != CtlCommandRetry ==>
                    r == Response(StatusNotImplemented, HandlerError(UnknownActionName, jobId), None))
              && (action == CtlCommandStop ==>
                    var failure := h.controller.value.stopJob(jobId);
                    && r.called == Some(StopCall(jobId))
                    && (failure.None? ==> r.code == StatusNoContent && r.payload == Empty)
                    && (failure.Some? ==> r == LookupErrorResponse(failure.value, StopJobFailed, StopCall(jobId))))
              && (action == CtlCommandCancel ==>
                    var failure := h.controller.value.cancelJob(jobId);
                    && r.called == Some(CancelCall(jobId))
                    && (failure.None? ==> r.code == StatusNoContent && r.payload == Empty)
                    && (failure.Some? ==> r == LookupErrorResponse(failure.value, CancelJobFailed, CancelCall(jobId))))
              && (action == CtlCommandRetry ==>
                    var failure := h.controller.value.retryJob(jobId);
                    && r.called == Some(RetryCall(jobId))
                    && (failure.None? ==> r.code == StatusNoContent && r.payload == Empty)
                    && (failure.Some? ==> r == LookupErrorResponse(failure.value, RetryJobFailed, RetryCall(jobId))))
  {
    match h.controller
    case None => NilControllerResponse()
    case Some(ctl) =>
      if !body.Decoded? then BodyErrorResponse(body)
      else
        match ControlOutcome(ctl, body.value.action, jobId)
        case None => Response(StatusNotImplemented, HandlerError(UnknownActionName, jobId), None)
        case Some((call, wrap, failure)) =>
          match failure
          case Some(e) => LookupErrorResponse(e, wrap, call)
          case None => Response(StatusNoContent, Empty, Some(call))
  }

  /** GET the service's health: 200 with the pool stats, or 500. */
  function HandleCheckStatus(h: Handler): (r: Response)
    ensures h.controller.Some? ==>
              var out := h.controller.value.checkStatus;
              && r.called == Some(CheckStatusCall)
              && (out.Ok? ==> r.code == StatusOK && r.payload == PoolStatsBody(out.value))
              && (out.Err? ==> r.code == StatusInternalServerError
                               && r.payload == HandlerError(CheckStatsFailed, out.error.message))
  {
    match h.controller
    case None => NilControllerResponse()
    case Some(ctl) =>
      match ctl.checkStatus
      case Ok(stats) => Response(StatusOK, PoolStatsBody(stats), Some(CheckStatusCall))
      case Err(e) => Response(StatusInternalServerError, HandlerError(CheckStatsFailed, e.message), Some(CheckStatusCall))
  }

  /** A job ID the log handler accepts: no ".." and no path separator. */
  predicate ValidLogJobId(jobId: string) {
    !Contains(jobId, "..") && PathSeparator !in jobId
  }

  /** GET a job's log: 400 for an ID that could leave the log directory,
      before the controller is asked; else 200 with the log, or the lookup
      failure. */
  function HandleJobLog(h: Handler, jobId: string): (r: Response)
    ensures h.controller.Some? && !ValidLogJobId(jobId) ==>
              r == Response(StatusBadRequest, HandlerError(InvalidJobId, jobId), None)
    ensures h.controller.Some? && ValidLogJobId(jobId) ==>
              var out := h.controller.value.getJobLogData(jobId);
              && (out.Ok? ==> r == Response(StatusOK, LogBody(out.value), Some(LogCall(jobId))))
              && (out.Err? ==> r == LookupErrorResponse(out.error, GetJobLogFailed, LogCall(jobId)))
  {
    match h.controller
    case None => NilControllerResponse()
    case Some(ctl) =>
      if Contains(jobId, "..") || PathSeparator in jobId then
        Response(StatusBadRequest, HandlerError(InvalidJobId, jobId), None)
      else
        match ctl.getJobLogData(jobId)
        case Ok(data) => Response(StatusOK, LogBody(data), Some(LogCall(jobId)))
        case Err(e) => LookupErrorResponse(e, GetJobLogFailed, LogCall(jobId))
  }

  // ---------------------------------------------------------------------
  // Properties across the handlers
  // ---------------------------------------------------------------------

  /** Every request, of any kind, to a handler without a controller is
      answered 500 and invokes nothing. */
  lemma NilControllerRejectsAll(req: JobRequest, launchBody: Body<JobRequest>, jobId: string,
                                actionBody: Body<JobActionRequest>)
    ensures var h := Handler(None);
            && HandleLaunchJob(h, launchBody) == NilControllerResponse()
            && HandleGetJob(h, jobId) == NilControllerResponse()
            && HandleJobAction(h, jobId, actionBody) == NilControllerResponse()
            && HandleCheckStatus(h) == NilControllerResponse()
            && HandleJobLog(h, jobId) == NilControllerResponse()
            && NilControllerResponse().code == StatusInternalServerError
            && NilControllerResponse().called == None
  {
  }

  /** A body that is not a readable JSON document is a server error, not a
      client error, and the controller is not invoked. */
  lemma BadBodiesAreServerErrors(h: Handler, jobId: string, lb: Body<JobRequest>, ab: Body<JobActionRequest>)
    requires h.controller.Some? && !lb.Decoded? && !ab.Decoded?
    ensures HandleLaunchJob(h, lb).code == StatusInternalServerError && HandleLaunchJob(h, lb).called == None
    ensures HandleJobAction(h, jobId, ab).code == StatusInternalServerError && HandleJobAction(h, jobId, ab).called == None
  {
  }

  /** A successful control command answers 204 with no body; a failed one
      answers 404 with the controller's own error exactly when the job was
      not found, and otherwise 500 with the command's wrapped error. */
  lemma ActionOutcomes(ctl: Controller, jobId: string, action: string)
    requires action == CtlCommandStop || action == CtlCommandCancel || action == CtlCommandRetry
    ensures var r := HandleJobAction(Handler(Some(ctl)), jobId, Decoded(JobActionRequest(action)));
            var failure := if action == CtlCommandStop then ctl.stopJob(jobId)
                           else if action == CtlCommandCancel then ctl.cancelJob(jobId)
                           else ctl.retryJob(jobId);
            var wrap := if action == CtlCommandStop then StopJobFailed
                        else if action == CtlCommandCancel then CancelJobFailed
                        else RetryJobFailed;
            && (failure.None? ==> r.code == StatusNoContent && r.payload == Empty)
            && (failure.Some? ==> (r.code == StatusNotFound <==> failure.value.errClass == NotFound))
            && (failure.Some? ==> r.code in {StatusNotFound, StatusInternalServerError})
            && (failure.Some? && failure.value.errClass == NotFound ==> r.payload == ControllerError(failure.value))
            && (failure.Some? && failure.value.errClass != NotFound ==>
                  r.payload == HandlerError(wrap, failure.value.message))
  {
  }

  /** The controller is reached only with a job ID that, joined to the log
      directory, adds exactly one path component, and that component is not
      "..". The ID "." or "" still passes, as it does in the handler. */
  lemma {:induction false} LogRequestsStayInDirectory(h: Handler, jobId: string, dir: string)
    requires HandleJobLog(h, jobId).called.Some?
    ensures jobId != ".."
    ensures Split(dir + [PathSeparator] + jobId, PathSeparator) == Split(dir, PathSeparator) + [jobId]
  {
    assert ValidLogJobId(jobId);
    SplitAtSeparator(dir, PathSeparator, jobId);
    SplitNoSeparator(jobId, PathSeparator);
  }

  /** Every answer uses one of the handler's eight status codes. */
  lemma StatusCodesAreKnown(h: Handler, jobId: string, lb: Body<JobRequest>, ab: Body<JobActionRequest>)
    ensures var codes := {StatusOK, StatusAccepted, StatusNoContent, StatusBadRequest,
                          StatusNotFound, StatusConflict, StatusInternalServerError, StatusNotImplemented};
            && HandleLaunchJob(h, lb).code in codes
            && HandleGetJob(h, jobId).code in codes
            && HandleJobAction(h, jobId, ab).code in codes
            && HandleCheckStatus(h).code in codes
            && HandleJobLog(h, jobId).code in codes
  {
  }
}
