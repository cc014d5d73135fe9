// The error message the gRPC services put inside their replies: an
// application error code, a message and a detail map. The numeric values
// of the codes are fixed by the protocol definition, which is not part of
// this model, so the codes are kept by name.

module ProtoError {
  datatype ErrorCode =
    | Unknown | NotFound | ElementNotFound | Timeout | NavigationFailed
    | EvaluationFailed | PageClosed | InvalidArgument | Internal

  datatype ProtoErr = ProtoErr(code: ErrorCode, message: string, details: map<string, string>)
}
