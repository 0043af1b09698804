// The protocol envelopes: what a channel or a remote call sends, how the
// replies it receives are classified, the redacted form of a message used
// for logging, and the wire form of a model specifier.

module Envelopes {
  import opened JsonValue
  import opened SdkErrors

  /** `{"type": t}` followed by further entries. */
  function Typed(t: string, rest: Entries): (j: Json)
    ensures j.JObject? && j.entries == [("type", JStr(t))] + rest
    ensures TypeIs(j, t)
  {
    JObject([("type", JStr(t))] + rest)
  }

  /** A decoded value equals the int `id` (a value pattern compares with `==`, and `True == 1`). */
  predicate IsId(j: Option<Json>, id: int)
  {
    j.Some? && NumberValue(j.value) == Some(id as real)
  }

  /* ---------------------------------------------------------------------
   * _redact_json
   * ------------------------------------------------------------------- */

  /** A nested value reduced to a placeholder of its kind; other values kept. */
  function RedactValue(v: Json): (r: Json)
  {
    match v
    case JObject(_) => JObject([("...", JStr("..."))])
    case JArray(_) => JArray([JStr("...")])
    case _ => v
  }

  /** The top level of a dict, every nested dict or list replaced by a placeholder. */
  function Redacted(entries: Entries): (r: Entries)
    ensures |r| == |entries|
    ensures forall i :: 0 <= i < |r| ==> r[i] == (entries[i].0, RedactValue(entries[i].1))
  {
    if entries == [] then []
    else Redacted(entries[..|entries| - 1]) + [(entries[|entries| - 1].0, RedactValue(entries[|entries| - 1].1))]
  }

  /** _redact_json: `None` stays `None`; a dict is copied key by key into a new dict. */
  method RedactJson(data: Option<Entries>) returns (r: Option<Entries>)
    requires data.Some? ==> DistinctKeys(data.value)
    ensures r.None? <==> data.None?
    ensures r.Some? ==> r.value == Redacted(data.value)
  {
    if data.None? {
      return None;
    }
    var entries := data.value;
    var redacted: Entries := [];
    var i := 0;
    while i < |entries|
      invariant 0 <= i <= |entries|
      invariant redacted == Redacted(entries[..i])
    {
      var (k, v) := entries[i];
      var value := match v
        case JObject(_) => JObject([("...", JStr("..."))])
        case JArray(_) => JArray([JStr("...")])
        case _ => v;
      RedactedMissesLaterKey(entries, i);
      redacted := Put(redacted, k, value);
      assert entries[..i + 1][..i] == entries[..i];
      i := i + 1;
    }
    assert entries[..i] == entries;
    r := Some(redacted);
  }

  /** The next key of a dict is not among the keys already copied. */
  lemma RedactedMissesLaterKey(entries: Entries, i: nat)
    requires DistinctKeys(entries) && i < |entries|
    ensures !HasKey(Redacted(entries[..i]), entries[i].0)
  {
  }

  /**
   * Redaction keeps every key with its scalar value and reveals nothing
   * nested: redacting a redacted dict changes nothing more.
   */
  lemma {:induction false} RedactedIdempotent(entries: Entries)
    ensures Redacted(Redacted(entries)) == Redacted(entries)
    ensures Keys(Redacted(entries)) == Keys(entries)
    ensures forall i :: 0 <= i < |entries| && !entries[i].1.JObject? && !entries[i].1.JArray? ==>
                          Redacted(entries)[i] == entries[i]
  {
    var once := Redacted(entries);
    forall i | 0 <= i < |entries|
      ensures Redacted(once)[i] == once[i]
    {
      assert RedactValue(RedactValue(entries[i].1)) == RedactValue(entries[i].1);
    }
  }

  /* ---------------------------------------------------------------------
   * _model_spec_to_api_dict
   * ------------------------------------------------------------------- */

  /**
   * The forms a model specifier is accepted in. A dict is given with its
   * keys already translated to camelCase (the Schemas module models that
   * translation); struct inputs are given as their `to_dict()` form.
   */
  datatype ModelSpec =
    | SpecText(identifier: string)       // a plain string
    | SpecStruct(specifier: Entries)     // a ModelSpecifierQuery or ModelSpecifierInstanceReference
    | QueryStruct(query: Entries)        // a ModelQuery
    | SpecDict(entries: Entries)         // any dict
    | Unsupported                        // anything else

  /** `ModelSpecifierQuery(query=q).to_dict()` */
  function QuerySpecifier(query: Entries): (j: Json)
    ensures TypeIs(j, "query") && Get(j, "query") == Some(JObject(query))
  {
    var j := Typed("query", [("query", JObject(query))]);
    assert j.entries[1] == ("query", JObject(query));
    j
  }

  function IdentifierQuery(identifier: string): Entries
  {
    [("identifier", JStr(identifier))]
  }

  /** _model_spec_to_api_dict */
  function ModelSpecToApiDict(spec: ModelSpec): (r: Result<Json>)
    ensures r.Err? <==> spec.Unsupported?
    ensures r.Err? ==> r.error == ValueError
    ensures spec.SpecText? ==> r == Ok(QuerySpecifier(IdentifierQuery(spec.identifier)))
    ensures spec.SpecDict? && (TypeIs(JObject(spec.entries), "query") || TypeIs(JObject(spec.entries), "instanceReference"))
      ==> r == Ok(JObject(spec.entries))
    ensures spec.SpecDict? || spec.SpecText? || spec.QueryStruct?
      ==> TypeIs(r.value, "query") || TypeIs(r.value, "instanceReference")
  {
    match spec
    case SpecText(s) => Ok(QuerySpecifier(IdentifierQuery(s)))
    case SpecStruct(specifier) => Ok(JObject(specifier))
    case QueryStruct(query) => Ok(QuerySpecifier(query))
    case SpecDict(entries) =>
      if TypeIs(JObject(entries), "query") || TypeIs(JObject(entries), "instanceReference") then Ok(JObject(entries))
      else Ok(QuerySpecifier(entries))
    case Unsupported => Err(ValueError)
  }

  /**
   * A plain string is shorthand for an identifier query: it gives the same
   * wire form as the query written as a dict or as a ModelQuery struct.
   */
  lemma TextIsIdentifierQuery(identifier: string)
    ensures ModelSpecToApiDict(SpecText(identifier)) == ModelSpecToApiDict(SpecDict(IdentifierQuery(identifier)))
    ensures ModelSpecToApiDict(SpecText(identifier)) == ModelSpecToApiDict(QueryStruct(IdentifierQuery(identifier)))
  {
    assert Get(JObject(IdentifierQuery(identifier)), "type").None?;
  }

  /** A dict that is already a full specifier passes through, so the conversion is idempotent on its output. */
  lemma ModelSpecIdempotent(spec: ModelSpec)
    requires spec.SpecText? || spec.QueryStruct? || spec.SpecDict?
    ensures ModelSpecToApiDict(SpecDict(ModelSpecToApiDict(spec).value.entries)) == ModelSpecToApiDict(spec)
  {
  }

  /* ---------------------------------------------------------------------
   * ChannelHandler
   * ------------------------------------------------------------------- */

  /** A channel's routing data: its ID and its endpoint's name, creation parameters and notice prefix. */
  datatype ChannelHandler = ChannelHandler(channelId: int, apiEndpoint: string, creationParams: Json, noticePrefix: string)
  {
    /** get_creation_message */
    function CreationMessage(): (m: Json)
      ensures TypeIs(m, "channelCreate")
      ensures Get(m, "endpoint") == Some(JStr(apiEndpoint))
      ensures IsId(Get(m, "channelId"), channelId)
      ensures Get(m, "creationParameter") == Some(creationParams)
    {
      var m := Typed("channelCreate", [("endpoint", JStr(apiEndpoint)), ("channelId", JNum(channelId as real)),
                                       ("creationParameter", creationParams)]);
      assert m.entries[1].0 == "endpoint" && m.entries[2].0 == "channelId" && m.entries[3].0 == "creationParameter";
      m
    }

    /** get_cancel_message: a `cancel` message sent on this channel. */
    function CancelMessage(): (m: Json)
      ensures TypeIs(m, "channelSend")
      ensures IsId(Get(m, "channelId"), channelId)
      ensures Get(m, "message") == Some(JObject([("type", JStr("cancel"))]))
    {
      SendEnvelope(channelId, [("type", JStr("cancel"))])
    }

    /**
     * handle_rx_message: the contents of a `channelSend` for this channel,
     * `None` once the server closes it, the server's error for a
     * `channelError`; every other message (a communication warning
     * included) is a client error.
     */
    function HandleRxMessage(message: Json): (r: Result<Option<Entries>>)
      ensures r.Ok? && r.value.Some? <==>
        TypeIs(message, "channelSend") && IsId(Get(message, "channelId"), channelId) && Get(message, "message").Some?
        && Get(message, "message").value.JObject?
      ensures r.Ok? && r.value.Some? ==> Get(message, "message") == Some(JObject(r.value.value))
      ensures r == Ok(None) <==> TypeIs(message, "channelClose") && IsId(Get(message, "channelId"), channelId)
      ensures r.Err? && r.error.ServerError? <==>
        TypeIs(message, "channelError") && IsId(Get(message, "channelId"), channelId) && Get(message, "error").Some?
        && Get(message, "error").value.JObject?
      ensures r.Err? && r.error.ServerError? ==> r.error == FromDetails(Get(message, "error").value.entries)
      ensures r.Err? ==> r.error.ServerError? || r.error == ClientError
    {
      var ours := IsId(Get(message, "channelId"), channelId);
      if TypeIs(message, "channelSend") && ours && Get(message, "message").Some? && Get(message, "message").value.JObject? then
        Ok(Some(Get(message, "message").value.entries))
      else if TypeIs(message, "channelClose") && ours then
        Ok(None)
      else if TypeIs(message, "channelError") && ours && Get(message, "error").Some? && Get(message, "error").value.JObject? then
        Err(FromDetails(Get(message, "error").value.entries))
      else
        Err(ClientError)
    }
  }

  /** A `channelSend` envelope carrying `contents` on channel `channelId`. */
  function SendEnvelope(channelId: int, contents: Entries): (m: Json)
    ensures TypeIs(m, "channelSend")
    ensures IsId(Get(m, "channelId"), channelId)
    ensures Get(m, "message") == Some(JObject(contents))
  {
    var m := Typed("channelSend", [("channelId", JNum(channelId as real)), ("message", JObject(contents))]);
    assert m.entries[1].0 == "channelId" && m.entries[2].0 == "message";
    m
  }

  /** A `channelSend` envelope for this channel hands back exactly its contents. */
  lemma SendEnvelopeRoundTrip(h: ChannelHandler, contents: Entries)
    ensures h.HandleRxMessage(SendEnvelope(h.channelId, contents)) == Ok(Some(contents))
  {
  }

  /** An envelope for another channel is never taken for this one's. */
  lemma OtherChannelRejected(h: ChannelHandler, other: int, contents: Entries)
    requires other != h.channelId
    ensures h.HandleRxMessage(SendEnvelope(other, contents)) == Err(ClientError)
  {
    var m := SendEnvelope(other, contents);
    assert !IsId(Get(m, "channelId"), h.channelId);
    assert !TypeIs(m, "channelClose") && !TypeIs(m, "channelError");
  }

  /* ---------------------------------------------------------------------
   * RemoteCallHandler
   * ------------------------------------------------------------------- */

  /** The keys of an rpcCall message's entries, read back. */
  lemma RpcFields(entries: Entries, endpoint: string, callId: int, params: Option<Json>)
    requires entries == [("type", JStr("rpcCall")), ("endpoint", JStr(endpoint)), ("callId", JNum(callId as real))]
      + (if params.Some? then [("parameter", params.value)] else [])
    ensures Lookup(entries, "endpoint") == Some(JStr(endpoint))
    ensures Lookup(entries, "callId") == Some(JNum(callId as real))
    ensures Lookup(entries, "parameter") == params
  {
    var extra := if params.Some? then [("parameter", params.value)] else [];
    var afterCallId := extra;
    var afterEndpoint := [("callId", JNum(callId as real))] + afterCallId;
    var afterType := [("endpoint", JStr(endpoint))] + afterEndpoint;
    assert entries == [("type", JStr("rpcCall"))] + afterType;
    LookupCons(("type", JStr("rpcCall")), afterType, "endpoint");
    LookupCons(("endpoint", JStr(endpoint)), afterEndpoint, "endpoint");
    LookupCons(("type", JStr("rpcCall")), afterType, "callId");
    LookupCons(("endpoint", JStr(endpoint)), afterEndpoint, "callId");
    LookupCons(("callId", JNum(callId as real)), afterCallId, "callId");
    LookupCons(("type", JStr("rpcCall")), afterType, "parameter");
    LookupCons(("endpoint", JStr(endpoint)), afterEndpoint, "parameter");
    LookupCons(("callId", JNum(callId as real)), afterCallId, "parameter");
    if params.Some? {
      LookupCons(("parameter", params.value), [], "parameter");
      assert afterCallId == [("parameter", params.value)] + [];
    }
  }

  datatype RemoteCallHandler = RemoteCallHandler(callId: int, noticePrefix: string)
  {
    /** get_rpc_message: "parameter" is present exactly when parameters are given. */
    function RpcMessage(endpoint: string, params: Option<Json>): (m: Json)
      ensures TypeIs(m, "rpcCall")
      ensures Get(m, "endpoint") == Some(JStr(endpoint))
      ensures IsId(Get(m, "callId"), callId)
      ensures Get(m, "parameter") == params
    {
      var base := [("endpoint", JStr(endpoint)), ("callId", JNum(callId as real))];
      var m := Typed("rpcCall", if params.Some? then base + [("parameter", params.value)] else base);
      RpcFields(m.entries, endpoint, callId, params);
      m
    }

    /**
     * handle_rx_message: an `rpcResult` for this call gives its "result"
     * (None when the call returns nothing), an `rpcError` raises the
     * server's error, anything else is a client error.
     */
    function HandleRxMessage(message: Json): (r: Result<Json>)
      ensures r.Ok? <==> TypeIs(message, "rpcResult") && IsId(Get(message, "callId"), callId)
      ensures r.Ok? && Get(message, "result").Some? ==> r.value == Get(message, "result").value
      ensures r.Ok? && Get(message, "result").None? ==> r.value == JNull
      ensures r.Err? && r.error.ServerError? <==>
        TypeIs(message, "rpcError") && IsId(Get(message, "callId"), callId) && Get(message, "error").Some?
        && Get(message, "error").value.JObject?
      ensures r.Err? && r.error.ServerError? ==> r.error == FromDetails(Get(message, "error").value.entries)
      ensures r.Err? ==> r.error.ServerError? || r.error == ClientError
    {
      var ours := IsId(Get(message, "callId"), callId);
      if TypeIs(message, "rpcResult") && ours then
        match Get(message, "result")
        case Some(result) => Ok(result)
        case None => Ok(JNull)
      else if TypeIs(message, "rpcError") && ours && Get(message, "error").Some? && Get(message, "error").value.JObject? then
        Err(FromDetails(Get(message, "error").value.entries))
      else
        Err(ClientError)
    }
  }

  /** An `rpcResult` envelope for a call, as the server sends it. */
  function ResultEnvelope(callId: int, result: Option<Json>): (m: Json)
    ensures TypeIs(m, "rpcResult") && IsId(Get(m, "callId"), callId) && Get(m, "result") == result
  {
    var base := [("callId", JNum(callId as real))];
    var m := Typed("rpcResult", if result.Some? then base + [("result", result.value)] else base);
    assert m.entries[1].0 == "callId";
    if result.Some? then
      assert Keys(m.entries[..2]) == ["type", "callId"];
      LookupFirstAt(m.entries, "result", 2);
      m
    else
      assert Keys(m.entries) == ["type", "callId"];
      HasKeyIffInKeys(m.entries, "result");
      m
  }

  /** The handler returns the result the server sent for its call, and None for a void call. */
  lemma ResultEnvelopeRoundTrip(h: RemoteCallHandler, result: Option<Json>)
    ensures h.HandleRxMessage(ResultEnvelope(h.callId, result)) == Ok(if result.Some? then result.value else JNull)
  {
  }
}
