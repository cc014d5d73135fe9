// Reply builders of the page service (src/services/page/response.rs): the
// error table into application codes, the second table from application
// codes to gRPC status codes, and the conversion of a page operation's
// outcome into a reply.

module PageResponse {
  import opened Wrappers
  import Grpc
  import opened Errors
  import opened ProtoError

  /** error_to_proto: the page-service code of an error, with its display text as message and no details. */
  function ErrorToProto(e: Error): (p: ProtoErr)
    ensures p.message == Display(e) && p.details == map[]
  {
    var code :=
      match e
      case PageNotFound(_) => PageClosed
      case Timeout(_) => ErrorCode.Timeout
      case NavigationFailed(_) => ErrorCode.NavigationFailed
      case ScriptExecutionFailed(_) => EvaluationFailed
      case Configuration(_) => InvalidArgument
      case _ => ErrorCode.Internal;
    ProtoErr(code, Display(e), map[])
  }

  /** The gRPC code error_to_status gives each application code. */
  function StatusCodeOf(c: ErrorCode): Grpc.Code
  {
    match c
    case PageClosed => Grpc.NotFound
    case Timeout => Grpc.DeadlineExceeded
    case NavigationFailed => Grpc.Aborted
    case EvaluationFailed => Grpc.Internal
    case InvalidArgument => Grpc.InvalidArgument
    case _ => Grpc.Internal
  }

  /** error_to_status: the error's application code mapped on to a gRPC code, with the same message. */
  function ErrorToStatus(e: Error): (s: Grpc.Status)
    ensures s.message == Display(e)
  {
    var p := ErrorToProto(e);
    Grpc.Status(StatusCodeOf(p.code), p.message)
  }

  /** The application code of each variant: exactly five variants get a code of their own. */
  lemma ErrorToProtoCodes(e: Error)
    ensures ErrorToProto(e).code == PageClosed <==> e.PageNotFound?
    ensures ErrorToProto(e).code == ErrorCode.Timeout <==> e.Timeout?
    ensures ErrorToProto(e).code == ErrorCode.NavigationFailed <==> e.NavigationFailed?
    ensures ErrorToProto(e).code == EvaluationFailed <==> e.ScriptExecutionFailed?
    ensures ErrorToProto(e).code == InvalidArgument <==> e.Configuration?
    ensures ErrorToProto(e).code == ErrorCode.Internal <==>
              !(e.PageNotFound? || e.Timeout? || e.NavigationFailed? || e.ScriptExecutionFailed? || e.Configuration?)
  {
  }

  /** The gRPC code of each variant through the two tables. */
  lemma ErrorToStatusCodes(e: Error)
    ensures ErrorToStatus(e).code == Grpc.NotFound <==> e.PageNotFound?
    ensures ErrorToStatus(e).code == Grpc.DeadlineExceeded <==> e.Timeout?
    ensures ErrorToStatus(e).code == Grpc.Aborted <==> e.NavigationFailed?
    ensures ErrorToStatus(e).code == Grpc.InvalidArgument <==> e.Configuration?
    ensures ErrorToStatus(e).code == Grpc.Internal <==>
              !(e.PageNotFound? || e.Timeout? || e.NavigationFailed? || e.Configuration?)
  {
  }

  /** This table and the crate-wide conversion of src/error.rs agree on every variant except SessionNotFound, BrowserNotFound and ScriptExecutionFailed (a passed-through gRPC status aside). */
  lemma StatusTablesDisagree(e: Error)
    requires !e.GrpcError?
    ensures ErrorToStatus(e).code == ToStatus(e).code <==>
              !(e.SessionNotFound? || e.BrowserNotFound? || e.ScriptExecutionFailed?)
    ensures e.ScriptExecutionFailed? ==> ErrorToStatus(e).code == Grpc.Internal && ToStatus(e).code == Grpc.Aborted
  {
  }

  /** SuccessResponse::empty: a placeholder that always answers Unimplemented. */
  function SuccessEmpty<T>(): (r: Result<T, Grpc.Status>)
    ensures r.Err? && r.error.code == Grpc.Unimplemented
  {
    Err(Grpc.Status(Grpc.Unimplemented, "SuccessResponse::empty needs specific implementation"))
  }

  /** ErrorResponse::from_error: the error travels inside a successful reply. */
  function FromError<R>(e: Error, wrap: ProtoErr -> R): (r: Result<R, Grpc.Status>)
    ensures r == Ok(wrap(ErrorToProto(e)))
  {
    Ok(wrap(ErrorToProto(e)))
  }

  datatype PageOperationResult<T> = Success(data: T) | PageMissing(pageId: string) | Failed(error: Error)

  /** PageOperationResult::to_response: every outcome becomes a successful reply; a missing page is reported as PageClosed with the page-not-found text. */
  function ToResponse<T, R>(op: PageOperationResult<T>, mapper: T -> R, wrap: ProtoErr -> R): (r: Result<R, Grpc.Status>)
    ensures r.Ok?
    ensures op.Success? ==> r.value == mapper(op.data)
    ensures op.PageMissing? ==>
              r.value == wrap(ProtoErr(PageClosed, "Page not found: " + op.pageId, map[]))
    ensures op.Failed? ==> r.value == wrap(ErrorToProto(op.error))
  {
    match op
    case Success(data) => Ok(mapper(data))
    case PageMissing(id) => FromError(PageNotFound(id), wrap)
    case Failed(e) => FromError(e, wrap)
  }
}
