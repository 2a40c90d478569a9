/**
 * Responses: the outcome of a request. `ResponseType` has a hand-written
 * codec that branches on the `success` boolean: a successful response is the
 * adjacently tagged `ResponseCommand` (tag `command`, payload `body`), an
 * error response is a `{command, message, body}` record whose command is any
 * string. `Response` adds the `request_seq` of the request it answers and
 * flattens the `ResponseType` into the same object.
 */
module Responses {
  import opened Json
  import opened Types

  // ----- the successful payload -----

  /** `ResponseCommand`, the result of a successful request. */
  datatype ResponseCommand = Initialize(capabilities: Capabilities)

  /** The wire tag of a response command. */
  function ResponseCommandName(c: ResponseCommand): string {
    match c
    case Initialize(_) => "initialize"
  }

  /** The members a successful payload adds: the tag, then the payload. */
  function EncodeResponseCommand(c: ResponseCommand): seq<Member> {
    match c
    case Initialize(caps) => Tagged("command", "initialize", "body", Some(EncodeCapabilities(caps)))
  }

  /** The derived decoder of the adjacently tagged `ResponseCommand`; members
      other than the tag and the payload are ignored. The payload is required,
      and `DecodeCapabilities` refuses anything but an object. */
  function DecodeResponseCommand(o: seq<Member>): (r: Result<ResponseCommand>)
    ensures Get(o, "command") == None ==> r == Err(MissingField("command"))
    ensures r.Ok? ==> Get(o, "command") == Some(JString("initialize"))
    ensures Get(o, "command").Some? && Get(o, "command").value.JString? && Get(o, "command").value.s != "initialize"
      ==> r == Err(UnknownVariant(Get(o, "command").value.s))
    ensures Get(o, "command") == Some(JString("initialize")) && Get(o, "body") == None
      ==> r == Err(MissingField("body"))
  {
    var tag :- Required(o, "command", DecodeString);
    if tag == "initialize" then
      var caps :- Required(o, "body", DecodeCapabilities);
      Ok(Initialize(caps))
    else
      Err(UnknownVariant(tag))
  }

  // ----- the response type -----

  /** `ResponseType`: the arm follows the `success` member. The error arm's
      `command` names the request and is not checked against any catalogue;
      its `body` is arbitrary JSON. */
  datatype ResponseType =
    | Success(result: ResponseCommand)
    | Error(command: string, message: string, body: Option<Json>)

  /** An `Option<Value>` as written without a skip attribute: None is null. */
  function ValueOrNull(v: Option<Json>): (j: Json)
    ensures v.None? ==> j == JNull
    ensures v.Some? ==> j == v.value
  {
    match v
    case None => JNull
    case Some(x) => x
  }

  /** The wire names of an error response, in the order they are written. */
  const ErrorKeys: seq<string> := ["success", "command", "message", "body"]

  /** The values of an error response; none is ever skipped. */
  function ErrorValues(command: string, message: string, body: Option<Json>): (r: seq<Option<Json>>)
    ensures |r| == |ErrorKeys|
  {
    [Some(JBool(false)), Some(JStr(command)), Some(JStr(message)), Some(ValueOrNull(body))]
  }

  lemma ErrorKeysDistinct()
    ensures DistinctNames(ErrorKeys)
  {
  }

  /** `serialize`: `success` first, then either the members of the successful
      payload or `command`, `message` and `body`, the last written even when
      it is None. */
  function EncodeResponseType(t: ResponseType): seq<Member> {
    match t
    case Success(c) => With("success", Some(JBool(true)), EncodeResponseCommand(c))
    case Error(command, message, body) => Members(ErrorKeys, ErrorValues(command, message, body))
  }

  /** `deserialize`: `success` must be present and a boolean; true re-reads
      the whole object as a `ResponseCommand`, false as the error record, in
      which `command` and `message` are required strings and `body` is
      optional JSON with null read as None. */
  function DecodeResponseType(o: seq<Member>): (r: Result<ResponseType>)
    ensures Get(o, "success") == None ==> r == Err(MissingField("success"))
    ensures Get(o, "success").Some? && !Get(o, "success").value.JBool? ==> r == Err(InvalidType)
    ensures r.Ok? ==> Get(o, "success") == Some(JBool(r.value.Success?))
    ensures r.Ok? && r.value.Success? ==> DecodeResponseCommand(o) == Ok(r.value.result)
    ensures Get(o, "success") == Some(JBool(true)) && DecodeResponseCommand(o).Err?
      ==> r == Err(DecodeResponseCommand(o).error)
    ensures Get(o, "success") == Some(JBool(true)) && DecodeResponseCommand(o).Ok?
      ==> r == Ok(Success(DecodeResponseCommand(o).value))
    ensures r.Ok? && r.value.Error? ==>
      && Get(o, "command") == Some(JString(r.value.command))
      && Get(o, "message") == Some(JString(r.value.message))
      && r.value.body == OptionalValue(o, "body")
    ensures Get(o, "success") == Some(JBool(false)) ==>
      (r.Ok? <==> (&& Get(o, "command").Some? && Get(o, "command").value.JString?
                   && Get(o, "message").Some? && Get(o, "message").value.JString?))
  {
    var success :- Required(o, "success", DecodeBool);
    if success then
      var c :- DecodeResponseCommand(o);
      Ok(Success(c))
    else
      var command :- Required(o, "command", DecodeString);
      var message :- Required(o, "message", DecodeString);
      Ok(Error(command, message, OptionalValue(o, "body")))
  }

  // ----- the response -----

  /** `Response`: the sequence number of the answered request, followed by
      the flattened `ResponseType`. */
  datatype Response = Response(requestSeq: u64, responseType: ResponseType)

  /** `request_seq` first, then the members of the response type. */
  function EncodeResponse(r: Response): seq<Member> {
    With("request_seq", Some(EncodeU64(r.requestSeq)), EncodeResponseType(r.responseType))
  }

  /** `request_seq` is a required u64; the flattened response type sees the
      other members. */
  function DecodeResponse(o: seq<Member>): (r: Result<Response>)
    ensures Get(o, "request_seq") == None ==> r == Err(MissingField("request_seq"))
    ensures r.Ok? ==> Get(o, "request_seq") == Some(JInt(r.value.requestSeq))
    ensures r.Ok? ==> DecodeResponseType(Without(o, "request_seq")) == Ok(r.value.responseType)
  {
    var requestSeq :- Required(o, "request_seq", DecodeU64);
    var t :- DecodeResponseType(Without(o, "request_seq"));
    Ok(Response(requestSeq, t))
  }

  // ----- properties -----

  /** An object whose tag is `initialize` and whose `body` encodes `caps`
      reads back as `Initialize(caps)`, whatever else it holds. */
  lemma DecodeHeldResponseCommand(o: seq<Member>, c: ResponseCommand)
    requires Get(o, "command") == Some(JString(ResponseCommandName(c)))
    requires Get(o, "body") == Some(EncodeCapabilities(c.capabilities))
    ensures DecodeResponseCommand(o) == Ok(c)
  {
    CapabilitiesRoundTrip(c.capabilities);
    RequiredRoundTrip(o, "body", c.capabilities, EncodeCapabilities, DecodeCapabilities);
  }

  /** A success response is `success: true` followed by the tag and the
      payload. */
  lemma SuccessResponseShape(c: ResponseCommand)
    ensures EncodeResponseType(Success(c))
         == [Member("success", JBool(true)), Member("command", JString(ResponseCommandName(c))),
             Member("body", EncodeCapabilities(c.capabilities))]
  {
  }

  /** An error response is `success: false`, `command`, `message`, `body`,
      in that order, with a null `body` when there is none. */
  lemma ErrorResponseShape(command: string, message: string, body: Option<Json>)
    ensures EncodeResponseType(Error(command, message, body))
         == [Member("success", JBool(false)), Member("command", JString(command)),
             Member("message", JString(message)), Member("body", ValueOrNull(body))]
    ensures body == None ==> Get(EncodeResponseType(Error(command, message, body)), "body") == Some(JNull)
  {
    MembersAllPresent(ErrorKeys, ErrorValues(command, message, body));
    ErrorKeysDistinct();
    GetMembers(ErrorKeys, ErrorValues(command, message, body), 3);
  }

  /** With `success` false, any command string is accepted: the error arm
      takes `command`, `message` and `body` as they are. */
  lemma ErrorArmAcceptsAnyCommand(o: seq<Member>, command: string, message: string)
    requires Get(o, "success") == Some(JBool(false))
    requires Get(o, "command") == Some(JString(command))
    requires Get(o, "message") == Some(JString(message))
    ensures DecodeResponseType(o) == Ok(Error(command, message, OptionalValue(o, "body")))
  {
  }

  /** With `success` true, a command other than `initialize` fails as an
      unknown variant, even where an error response would have accepted
      it. */
  lemma SuccessArmRejectsOtherCommands(o: seq<Member>, command: string)
    requires Get(o, "success") == Some(JBool(true))
    requires Get(o, "command") == Some(JString(command)) && command != "initialize"
    ensures DecodeResponseType(o) == Err(UnknownVariant(command))
  {
  }

  /** decode(encode(t)) == t for both arms, when an error body is not a null
      `Some`. */
  lemma ResponseTypeRoundTrip(t: ResponseType)
    requires t.Error? ==> t.body != Some(JNull)
    ensures DecodeResponseType(EncodeResponseType(t)) == Ok(t)
  {
    var o := EncodeResponseType(t);
    match t
    case Success(c) =>
      DecodeHeldResponseCommand(o, c);
    case Error(command, message, body) =>
      ReadErrorMembers(command, message, body);
  }

  /** The members of an error response read back as written. */
  lemma ReadErrorMembers(command: string, message: string, body: Option<Json>)
    ensures Get(EncodeResponseType(Error(command, message, body)), "success") == Some(JBool(false))
    ensures Get(EncodeResponseType(Error(command, message, body)), "command") == Some(JString(command))
    ensures Get(EncodeResponseType(Error(command, message, body)), "message") == Some(JString(message))
    ensures Get(EncodeResponseType(Error(command, message, body)), "body") == Some(ValueOrNull(body))
  {
    ErrorKeysDistinct();
    var values := ErrorValues(command, message, body);
    GetMembers(ErrorKeys, values, 0);
    GetMembers(ErrorKeys, values, 1);
    GetMembers(ErrorKeys, values, 2);
    GetMembers(ErrorKeys, values, 3);
  }

  /** An error body of null is written as null and read back as None. */
  lemma NullErrorBodyCollapses(command: string, message: string)
    ensures DecodeResponseType(EncodeResponseType(Error(command, message, Some(JNull))))
         == Ok(Error(command, message, None))
  {
    ReadErrorMembers(command, message, Some(JNull));
  }

  /** `request_seq` is written before `success`. */
  lemma ResponseKeyOrder(r: Response)
    ensures |EncodeResponse(r)| >= 2
    ensures EncodeResponse(r)[0] == Member("request_seq", JInt(r.requestSeq))
    ensures EncodeResponse(r)[1] == Member("success", JBool(r.responseType.Success?))
  {
  }

  /** decode(encode(r)) == r. */
  lemma ResponseRoundTrip(r: Response)
    requires r.responseType.Error? ==> r.responseType.body != Some(JNull)
    ensures DecodeResponse(EncodeResponse(r)) == Ok(r)
  {
    var o := EncodeResponse(r);
    var inner := EncodeResponseType(r.responseType);
    ResponseTypeRoundTrip(r.responseType);
    assert Without(o, "request_seq") == inner by {
      ResponseTypeOnlyOwnKeys(r.responseType, "request_seq");
      WithoutAbsent(inner, "request_seq");
    }
  }

  /** A response type is written as `success` and the members of its arm,
      which are among `command`, `message` and `body`. */
  lemma ResponseTypeOnlyOwnKeys(t: ResponseType, k: string)
    requires k !in ErrorKeys
    ensures Get(EncodeResponseType(t), k) == None
  {
    match t
    case Success(_) =>
    case Error(command, message, body) =>
      GetMembersUnlisted(ErrorKeys, ErrorValues(command, message, body), k);
  }

  /** A response adds only `request_seq` to the members of its type. */
  lemma ResponseOnlyOwnKeys(r: Response, k: string)
    requires k != "request_seq" && k !in ErrorKeys
    ensures Get(EncodeResponse(r), k) == None
  {
    ResponseTypeOnlyOwnKeys(r.responseType, k);
  }

  /** Decoding reads members by name only. */
  lemma DecodeResponseReadsByName(a: seq<Member>, b: seq<Member>)
    requires SameFields(a, b)
    ensures DecodeResponse(a) == DecodeResponse(b)
  {
    assert Get(a, "request_seq") == Get(b, "request_seq");
    WithoutSameFields(a, b, "request_seq");
    var a1, b1 := Without(a, "request_seq"), Without(b, "request_seq");
    assert Get(a1, "success") == Get(b1, "success");
    assert Get(a1, "command") == Get(b1, "command");
    assert Get(a1, "message") == Get(b1, "message");
    assert Get(a1, "body") == Get(b1, "body");
  }
}
