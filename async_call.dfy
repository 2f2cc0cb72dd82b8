/**
 * The async-call wrapper `useApi`: each instance owns a `loading` flag and an
 * `error` slot; `execute` runs a producer, hands back its result, or records
 * a normalised error and hands back null. It never rethrows.
 */
module AsyncCall {
  import opened Wrappers
  import opened Entities

  /**
   * The error record `execute` keeps for whatever the producer threw: its
   * `message` (or the default text), its `status` (or 500), and its `message`
   * again. For a normalised HTTP error the `message` is the server's error
   * text when there was one.
   */
  function Captured(f: Failure): (e: ApiError)
    ensures e.error != "" && e.status != 0
    ensures f.HttpFailure? ==> e.message == f.apiError.message
    ensures f.HttpFailure? && f.apiError.status != 0 ==> e.status == f.apiError.status
    ensures f.HttpFailure? && f.apiError.message.Some? && f.apiError.message.value != "" ==>
      e.error == f.apiError.message.value
    ensures f.HttpFailure? && !(f.apiError.message.Some? && f.apiError.message.value != "") ==>
      e.error == DefaultErrorMessage
    ensures f.HttpFailure? && f.apiError.status == 0 ==> e.status == DefaultErrorStatus
    ensures f.ScriptFailure? ==> e.status == DefaultErrorStatus && e.message == Some(f.message)
    ensures f.ScriptFailure? && f.message != "" ==> e.error == f.message
    ensures f.ScriptFailure? && f.message == "" ==> e.error == DefaultErrorMessage
  {
    match f
    case HttpFailure(a) =>
      ApiError(
        if a.message.Some? && a.message.value != "" then a.message.value else DefaultErrorMessage,
        if a.status != 0 then a.status else DefaultErrorStatus,
        a.message)
    case ScriptFailure(m) =>
      ApiError(if m != "" then m else DefaultErrorMessage, DefaultErrorStatus, Some(m))
  }

  /** The error slot after `execute` has awaited a producer that ended with `outcome`. */
  function ErrorAfter<T>(outcome: Result<T, Failure>): Option<ApiError>
  {
    if outcome.Ok? then None else Some(Captured(outcome.error))
  }

  /** The value `execute` resolves to: the producer's result, or null when it threw. */
  function ValueOf<T>(outcome: Result<T, Failure>): Option<T>
  {
    if outcome.Ok? then Some(outcome.value) else None
  }

  class ApiCall {
    var loading: bool
    var error: Option<ApiError>

    constructor ()
      ensures !loading && error == None
    {
      loading := false;
      error := None;
    }

    /**
     * `execute(apiCall)`, with `outcome` standing for how the awaited producer
     * ended. The error slot is cleared first, so a success leaves it empty;
     * `loading` is false on both exits. Only this instance changes.
     */
    method Execute<T>(outcome: Result<T, Failure>) returns (r: Option<T>)
      modifies this
      ensures !loading
      ensures r == ValueOf(outcome) && error == ErrorAfter(outcome)
      ensures outcome.Ok? ==> r == Some(outcome.value) && error == None
      ensures outcome.Err? ==> r == None && error == Some(Captured(outcome.error))
    {
      loading := true;
      error := None;
      match outcome {
        case Ok(v) =>
          r := Some(v);
        case Err(f) =>
          error := Some(Captured(f));
          r := None;
      }
      loading := false;
    }
  }

  /** Two wrapper instances do not share state: a call through one leaves the other as it was. */
  method IndependentInstances<T>(a: ApiCall, b: ApiCall, outcome: Result<T, Failure>)
    requires a != b
    modifies a
    ensures unchanged(b)
    ensures a.error == ErrorAfter(outcome) && !a.loading
  {
    var _ := a.Execute(outcome);
  }
}
