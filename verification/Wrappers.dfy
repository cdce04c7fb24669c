/** The result types shared by every module. */
module Wrappers {
  datatype Option<+T> = None | Some(value: T)

  /** Why a call into the API server, or an operation built from such calls, came back with an error. */
  datatype ApiError =
    | NotFound      // no object of that name
    | AlreadyExists // Create of a name that is taken
    | Conflict      // Update carried a resource version that is no longer current
    | Refused       // any other error; the server did nothing
    | LostReply     // the server did commit the write, but the caller saw an error
    | Timeout       // polling ended before the awaited condition held
    | Panicked      // the caller dereferenced nil
    | TaskFailed    // the work between stop and start reported an error

  datatype Result<+T> = Ok(value: T) | Err(error: ApiError)

  /** The kinds of nodes, one for each deploy method. */
  datatype NodeKind = CloudConfigNode | PythonNode | HelmNode

  /** What the methods return that only report success. */
  datatype Outcome = Success | Failure(error: ApiError)
}
