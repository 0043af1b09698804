// The SDK's exception hierarchy, as values: every raise in the model returns
// one of these in a `Result`.

module SdkErrors {
  import opened JsonValue

  /** Which subclass of LMStudioServerError was raised. */
  datatype ServerErrorKind =
    | GenericServer     // LMStudioServerError itself
    | ModelNotFound     // LMStudioModelNotFoundError
    | PresetNotFound    // LMStudioPresetNotFoundError
    | ChannelClosed     // LMStudioChannelClosedError
    | Prediction        // LMStudioPredictionError

  /** Exceptions Python itself or a foreign library raises on the SDK's behalf. */
  datatype BuiltinErrorKind =
    | TypeError         // comparing or indexing values of unsuitable types
    | KeyError          // `d[k]` on a missing key
    | AttributeError    // a dict method called on a value that is not a dict
    | AssertionError    // a failed `assert`
    | ValidationError   // msgspec rejecting a value

  datatype Error =
    | ServerError(kind: ServerErrorKind, rawError: Option<Entries>)
    | ClientError             // LMStudioClientError
    | UnknownMessageError     // LMStudioUnknownMessageError
    | CancelledError          // LMStudioCancelledError
    | RuntimeError            // LMStudioRuntimeError
    | ValueError              // LMStudioValueError
    | Builtin(builtin: BuiltinErrorKind)

  datatype Result<+T> = Ok(value: T) | Err(error: Error)

  /** Every LMStudioServerError keeps the server's details without their "stack" entry. */
  function ServerErrorWithDetails(kind: ServerErrorKind, details: Entries): (e: Error)
    ensures e.ServerError? && e.kind == kind && e.rawError.Some?
    ensures !HasKey(e.rawError.value, "stack")
    ensures forall k :: k != "stack" ==> Lookup(e.rawError.value, k) == Lookup(details, k)
  {
    ServerError(kind, Some(Remove(details, "stack")))
  }

  /** The "code" of the server's display data, when the details carry one. */
  function DisplayCode(details: Entries): Option<Json>
  {
    match Lookup<Json>(details, "displayData")
    case Some(JObject(display)) => Lookup(display, "code")
    case _ => None
  }

  /**
   * LMStudioServerError.from_details: the server's display-data code picks
   * the subclass; any other error stays a plain server error.
   */
  function FromDetails(details: Entries): (e: Error)
    ensures e.ServerError? && e.rawError == Some(Remove(details, "stack"))
    ensures e.kind == ModelNotFound <==> DisplayCode(details) == Some(JStr("generic.noModelMatchingQuery"))
    ensures e.kind == PresetNotFound <==> DisplayCode(details) == Some(JStr("generic.presetNotFound"))
    ensures e.kind in {GenericServer, ModelNotFound, PresetNotFound}
  {
    var raw := Remove(details, "stack");
    // "displayData" and "code" are never "stack", so removing it changes neither
    assert Lookup(raw, "displayData") == Lookup(details, "displayData");
    var kind :=
      match Lookup<Json>(raw, "displayData")
      case Some(JObject(display)) =>
        if Lookup(display, "code") == Some(JStr("generic.noModelMatchingQuery")) then ModelNotFound
        else if Lookup(display, "code") == Some(JStr("generic.presetNotFound")) then PresetNotFound
        else GenericServer
      case _ => GenericServer;
    ServerErrorWithDetails(kind, details)
  }
}
