/**
 * The envelope of every Debug Adapter Protocol message: a sequence number
 * `seq` and the message type, flattened into one object. The message type is
 * internally tagged by `type`: the tag is written first and the members of
 * the request, response or event follow it in the same object.
 */
module Protocol {
  import opened Json
  import Requests
  import Responses
  import Events
  import Types

  // ----- the message type -----

  /** `ProtocolMessageType`: a client or adapter request, a response to a
      request, or an adapter event. */
  datatype ProtocolMessageType =
    | Request(request: Requests.RequestCommand)
    | Response(response: Responses.Response)
    | Event(event: Events.Event)

  /** The wire tags, the camelCase variant names. */
  const MessageTypeNames: set<string> := {"request", "response", "event"}

  /** The wire tag of a message type. */
  function MessageTypeName(t: ProtocolMessageType): (name: string)
    ensures name in MessageTypeNames
  {
    match t
    case Request(_) => "request"
    case Response(_) => "response"
    case Event(_) => "event"
  }

  /** The members the variant's own value contributes after the tag. */
  function Payload(t: ProtocolMessageType): seq<Member> {
    match t
    case Request(c) => Requests.EncodeRequest(c)
    case Response(r) => Responses.EncodeResponse(r)
    case Event(e) => Events.EncodeEvent(e)
  }

  /** Serialization of the internally tagged enum: the tag, then the
      members of the payload. */
  function EncodeMessageType(t: ProtocolMessageType): seq<Member> {
    With("type", Some(JString(MessageTypeName(t))), Payload(t))
  }

  /** The variant named by `tag`, read from the members other than the tag. */
  function DecodeTaggedMessageType(tag: string, rest: seq<Member>): (r: Result<ProtocolMessageType>)
    ensures tag !in MessageTypeNames ==> r == Err(UnknownVariant(tag))
    ensures r.Ok? ==> MessageTypeName(r.value) == tag
  {
    if tag == "request" then
      var c :- Requests.DecodeRequest(rest);
      Ok(Request(c))
    else if tag == "response" then
      var x :- Responses.DecodeResponse(rest);
      Ok(Response(x))
    else if tag == "event" then
      var e :- Events.DecodeEvent(rest);
      Ok(Event(e))
    else
      Err(UnknownVariant(tag))
  }

  /** Deserialization of the internally tagged enum: `type` is a required
      string naming a variant, and the variant is read from the other
      members. */
  function DecodeMessageType(o: seq<Member>): (r: Result<ProtocolMessageType>)
    ensures Get(o, "type") == None ==> r == Err(MissingField("type"))
    ensures Get(o, "type").Some? && !Get(o, "type").value.JString? ==> r == Err(InvalidType)
    ensures Get(o, "type").Some? && Get(o, "type").value.JString? && Get(o, "type").value.s !in MessageTypeNames
      ==> r == Err(UnknownVariant(Get(o, "type").value.s))
    ensures r.Ok? ==> Get(o, "type") == Some(JString(MessageTypeName(r.value)))
  {
    match Get(o, "type")
    case None => Err(MissingField("type"))
    case Some(v) =>
      var tag :- DecodeString(v);
      DecodeTaggedMessageType(tag, Without(o, "type"))
  }

  // ----- the message -----

  /** `ProtocolMessage`: the sequence number (wire name `seq`) and the
      flattened message type. */
  datatype ProtocolMessage = ProtocolMessage(sequenceNumber: u64, messageType: ProtocolMessageType)

  /** `seq` first, then the members of the message type. */
  function EncodeProtocolMessage(m: ProtocolMessage): seq<Member> {
    With("seq", Some(EncodeU64(m.sequenceNumber)), EncodeMessageType(m.messageType))
  }

  /** `seq` is a required u64; the flattened message type sees every other
      member. */
  function DecodeProtocolMessage(o: seq<Member>): Result<ProtocolMessage> {
    var n :- Required(o, "seq", DecodeU64);
    var t :- DecodeMessageType(Without(o, "seq"));
    Ok(ProtocolMessage(n, t))
  }

  // ----- properties -----

  /** A message without `seq` fails as a missing field. */
  lemma MissingSeqRejected(o: seq<Member>)
    requires Get(o, "seq") == None
    ensures DecodeProtocolMessage(o) == Err(MissingField("seq"))
  {
  }

  /** A `seq` that is not an integer in the range of u64 fails as a value of
      the wrong type, before the message type is looked at. */
  lemma SeqOutOfRangeRejected(o: seq<Member>)
    requires Get(o, "seq").Some?
    requires !(Get(o, "seq").value.JInt? && 0 <= Get(o, "seq").value.n < 0x1_0000_0000_0000_0000)
    ensures DecodeProtocolMessage(o) == Err(InvalidType)
  {
  }

  /** A message reads back from a `seq` in range and a message type held by
      the other members. */
  lemma DecodeHeldMessage(o: seq<Member>, n: u64, t: ProtocolMessageType)
    requires Get(o, "seq") == Some(JInt(n))
    requires DecodeMessageType(Without(o, "seq")) == Ok(t)
    ensures DecodeProtocolMessage(o) == Ok(ProtocolMessage(n, t))
  {
  }

  /** A decoded message has the sequence number written under `seq` and the
      message type read from the other members. */
  lemma DecodedEnvelope(o: seq<Member>)
    requires DecodeProtocolMessage(o).Ok?
    ensures Get(o, "seq") == Some(JInt(DecodeProtocolMessage(o).value.sequenceNumber))
    ensures DecodeMessageType(Without(o, "seq")) == Ok(DecodeProtocolMessage(o).value.messageType)
  {
  }

  /** The message types whose encoding reads back: an `Option<Value>` set to
      a JSON null is written as null and read back as None. */
  ghost predicate WellFormed(t: ProtocolMessageType) {
    match t
    case Request(_) => true
    case Response(r) => r.responseType.Error? ==> r.responseType.body != Some(JNull)
    case Event(e) => Events.WellFormed(e)
  }

  /** A payload holds neither `seq` nor `type`. */
  lemma PayloadOmitsEnvelopeKeys(t: ProtocolMessageType, k: string)
    requires k == "seq" || k == "type"
    ensures Get(Payload(t), k) == None
  {
    match t
    case Request(c) => Requests.RequestOnlyOwnKeys(c, k);
    case Response(r) => Responses.ResponseOnlyOwnKeys(r, k);
    case Event(e) => Events.EventOnlyOwnKeys(e, k);
  }

  /** A request reads back from the members that follow its tag. */
  lemma DecodeHeldRequest(o: seq<Member>, c: Requests.RequestCommand)
    requires Get(o, "type") == Some(JString("request"))
    requires Requests.DecodeRequest(Without(o, "type")) == Ok(c)
    ensures DecodeMessageType(o) == Ok(Request(c))
  {
  }

  /** A response reads back from the members that follow its tag. */
  lemma DecodeHeldResponse(o: seq<Member>, r: Responses.Response)
    requires Get(o, "type") == Some(JString("response"))
    requires Responses.DecodeResponse(Without(o, "type")) == Ok(r)
    ensures DecodeMessageType(o) == Ok(Response(r))
  {
  }

  /** An event reads back from the members that follow its tag. */
  lemma DecodeHeldEvent(o: seq<Member>, e: Events.Event)
    requires Get(o, "type") == Some(JString("event"))
    requires Events.DecodeEvent(Without(o, "type")) == Ok(e)
    ensures DecodeMessageType(o) == Ok(Event(e))
  {
  }

  /** decode(encode(t)) == t for every well-formed message type. */
  lemma MessageTypeRoundTrip(t: ProtocolMessageType)
    requires WellFormed(t)
    ensures DecodeMessageType(EncodeMessageType(t)) == Ok(t)
  {
    var o := EncodeMessageType(t);
    assert Without(o, "type") == Payload(t) by {
      PayloadOmitsEnvelopeKeys(t, "type");
      WithoutWith("type", JString(MessageTypeName(t)), Payload(t));
    }
    match t
    case Request(c) =>
      Requests.RequestRoundTrip(c);
      DecodeHeldRequest(o, c);
    case Response(r) =>
      Responses.ResponseRoundTrip(r);
      DecodeHeldResponse(o, r);
    case Event(e) =>
      Events.EventRoundTrip(e);
      DecodeHeldEvent(o, e);
  }

  /** decode(encode(m)) == m for every message whose type is well formed. */
  lemma ProtocolMessageRoundTrip(m: ProtocolMessage)
    requires WellFormed(m.messageType)
    ensures DecodeProtocolMessage(EncodeProtocolMessage(m)) == Ok(m)
  {
    var inner := EncodeMessageType(m.messageType);
    assert Without(EncodeProtocolMessage(m), "seq") == inner by {
      PayloadOmitsEnvelopeKeys(m.messageType, "seq");
      WithoutWith("seq", EncodeU64(m.sequenceNumber), inner);
    }
    MessageTypeRoundTrip(m.messageType);
  }

  /** `seq` is written first and `type` second. */
  lemma EnvelopeKeyOrder(m: ProtocolMessage)
    ensures EncodeProtocolMessage(m)
         == [Member("seq", JInt(m.sequenceNumber)), Member("type", JString(MessageTypeName(m.messageType)))]
            + Payload(m.messageType)
  {
  }

  /** A message without a `type` fails as a missing field once its `seq` is
      read. */
  lemma MissingTypeRejected(o: seq<Member>)
    requires Get(o, "seq").Some? && DecodeU64(Get(o, "seq").value).Ok?
    requires Get(o, "type") == None
    ensures DecodeProtocolMessage(o) == Err(MissingField("type"))
  {
    var rest := Without(o, "seq");
    assert Get(rest, "type") == None;
    assert DecodeMessageType(rest) == Err(MissingField("type"));
  }

  /** A `type` naming no message type fails as an unknown variant. */
  lemma UnknownTypeRejected(o: seq<Member>, tag: string)
    requires Get(o, "seq").Some? && DecodeU64(Get(o, "seq").value).Ok?
    requires Get(o, "type") == Some(JString(tag)) && tag !in MessageTypeNames
    ensures DecodeProtocolMessage(o) == Err(UnknownVariant(tag))
  {
    var rest := Without(o, "seq");
    assert Get(rest, "type") == Some(JString(tag));
    assert DecodeMessageType(rest) == Err(UnknownVariant(tag));
  }

  /** Decoding reads members by name only: two objects that bind every key
      alike decode alike. */
  lemma DecodeReadsByName(a: seq<Member>, b: seq<Member>)
    requires SameFields(a, b)
    ensures DecodeProtocolMessage(a) == DecodeProtocolMessage(b)
  {
    assert Get(a, "seq") == Get(b, "seq");
    WithoutSameFields(a, b, "seq");
    DecodeMessageTypeReadsByName(Without(a, "seq"), Without(b, "seq"));
  }

  lemma DecodeMessageTypeReadsByName(a: seq<Member>, b: seq<Member>)
    requires SameFields(a, b)
    ensures DecodeMessageType(a) == DecodeMessageType(b)
  {
    assert Get(a, "type") == Get(b, "type");
    WithoutSameFields(a, b, "type");
    var a1, b1 := Without(a, "type"), Without(b, "type");
    match Get(a, "type")
    case Some(JString(tag)) => DecodeTaggedReadsByName(tag, a1, b1);
    case _ =>
  }

  lemma DecodeTaggedReadsByName(tag: string, a: seq<Member>, b: seq<Member>)
    requires SameFields(a, b)
    ensures DecodeTaggedMessageType(tag, a) == DecodeTaggedMessageType(tag, b)
  {
    Requests.DecodeRequestReadsByName(a, b);
    Responses.DecodeResponseReadsByName(a, b);
    Events.DecodeEventReadsByName(a, b);
  }

  /** The order in which members arrive does not matter: any reordering of
      an object without repeated keys decodes to the same message. */
  lemma MemberOrderIrrelevant(a: seq<Member>, b: seq<Member>)
    requires DistinctKeys(a) && DistinctKeys(b) && multiset(a) == multiset(b)
    ensures DecodeProtocolMessage(a) == DecodeProtocolMessage(b)
  {
    PermutedFieldsAgree(a, b);
    DecodeReadsByName(a, b);
  }

  // ----- the messages of the protocol tests -----

  /** The `exited` event with exit code 0, as the tests serialize it. */
  lemma ExitedEventMessage()
    ensures EncodeProtocolMessage(ProtocolMessage(1, Event(Events.Event.Exited(Events.ExitedEventBody(0)))))
         == [Member("seq", JInt(1)), Member("type", JString("event")), Member("event", JString("exited")),
             Member("body", JObject([Member("exitCode", JInt(0))]))]
  {
    var e := Events.Event.Exited(Events.ExitedEventBody(0));
    assert Events.EventName(e) == "exited";
    assert Members(Events.ExitedKeys, Events.ExitedValues(Events.ExitedEventBody(0)))
        == [Member("exitCode", JInt(0))];
    assert Events.EventBody(e) == Some(JObject([Member("exitCode", JInt(0))]));
  }

  /** The `exited` event reads back from the members the tests give. */
  lemma ExitedEventMessageDecoding()
    ensures DecodeProtocolMessage([Member("seq", JInt(1)), Member("type", JString("event")),
              Member("event", JString("exited")), Member("body", JObject([Member("exitCode", JInt(0))]))])
         == Ok(ProtocolMessage(1, Event(Events.Event.Exited(Events.ExitedEventBody(0)))))
  {
    ExitedEventMessage();
    ProtocolMessageRoundTrip(ProtocolMessage(1, Event(Events.Event.Exited(Events.ExitedEventBody(0)))));
  }

  /** The error body of the tests' failed `initialize` response. */
  const TestErrorBody: Json :=
    JObject([Member("error", JObject([Member("id", JInt(3)), Member("format", JString("This thing went wrong"))]))])

  /** The tests' failed `initialize` response, as they serialize it. */
  const TestErrorMessage: seq<Member> := [
    Member("seq", JInt(1)), Member("type", JString("response")), Member("request_seq", JInt(2)),
    Member("success", JBool(false)), Member("command", JString("initialize")),
    Member("message", JString("Something went wrong")), Member("body", TestErrorBody)]

  /** The failed response is written exactly as the tests expect. */
  lemma ErrorResponseMessageEncoding()
    ensures EncodeProtocolMessage(ProtocolMessage(1, Response(Responses.Response(2,
              Responses.Error("initialize", "Something went wrong", Some(TestErrorBody))))))
         == TestErrorMessage
  {
  }

  /** The tests' failed-response object reads back as that response. */
  lemma ErrorResponseMessageDecoding()
    ensures DecodeProtocolMessage(TestErrorMessage)
         == Ok(ProtocolMessage(1, Response(Responses.Response(2,
              Responses.Error("initialize", "Something went wrong", Some(TestErrorBody))))))
  {
    ErrorResponseMessageEncoding();
    ProtocolMessageRoundTrip(ProtocolMessage(1, Response(Responses.Response(2,
      Responses.Error("initialize", "Something went wrong", Some(TestErrorBody))))));
  }

  /** The `initialize` request is written with `pathFormat` and
      `supportsMemoryReferences` skipped at their defaults, as the tests
      expect. */
  lemma InitializeRequestMessageEncoding()
    ensures EncodeProtocolMessage(ProtocolMessage(1, Request(Requests.Initialize(Requests.TestArguments))))
         == [Member("seq", JInt(1)), Member("type", JString("request")), Member("command", JString("initialize")),
             Member("arguments", JObject(Requests.TestArgumentMembers))]
  {
    EnvelopeKeyOrder(ProtocolMessage(1, Request(Requests.Initialize(Requests.TestArguments))));
    Requests.TestRequestEncoding();
  }

  /** An `initialize` request written tag first and envelope last reads back
      like any other order. */
  lemma InitializeRequestEnvelopeLast(args: seq<Member>, a: Requests.InitializeArguments, n: u64)
    requires Requests.DecodeInitializeArguments(args) == Ok(a)
    ensures DecodeProtocolMessage([Member("command", JString("initialize")), Member("arguments", JObject(args)),
              Member("type", JString("request")), Member("seq", JInt(n))])
         == Ok(ProtocolMessage(n, Request(Requests.Initialize(a))))
  {
    var o := With("command", Some(JString("initialize")), With("arguments", Some(JObject(args)),
               With("type", Some(JString("request")), With("seq", Some(JInt(n)), []))));
    assert o == [Member("command", JString("initialize")), Member("arguments", JObject(args)),
                 Member("type", JString("request")), Member("seq", JInt(n))];
    var rest := Without(o, "seq");
    assert Get(o, "seq") == Some(JInt(n)) && Get(rest, "type") == Some(JString("request"));
    assert Get(Without(rest, "type"), "command") == Some(JString("initialize"));
    assert Get(Without(rest, "type"), "arguments") == Some(JObject(args));
    Requests.DecodeHeldInitializeRequest(Without(rest, "type"), args, a);
    DecodeHeldRequest(rest, Requests.Initialize(a));
    DecodeHeldMessage(o, n, Request(Requests.Initialize(a)));
  }

  /** The `initialize` request reads back from the members the tests give. */
  lemma InitializeRequestMessageDecoding()
    ensures DecodeProtocolMessage([Member("command", JString("initialize")),
              Member("arguments", JObject(Requests.TestGivenArguments())),
              Member("type", JString("request")), Member("seq", JInt(1))])
         == Ok(ProtocolMessage(1, Request(Requests.Initialize(Requests.TestArguments))))
  {
    Requests.TestArgumentsDecoding();
    InitializeRequestEnvelopeLast(Requests.TestGivenArguments(), Requests.TestArguments, 1);
  }

  /** The capabilities of the tests' `initialize` response: six flags set. */
  const TestCapabilities: Types.Capabilities := seq(Types.FlagCount, i => i in [0, 1, 2, 3, 24, 31])

  /** The tests' successful `initialize` response, as they serialize it. */
  const TestSuccessMessage: seq<Member> := [
    Member("seq", JInt(1)), Member("type", JString("response")), Member("request_seq", JInt(1)),
    Member("success", JBool(true)), Member("command", JString("initialize")),
    Member("body", JObject([
      Member("supportsConfigurationDoneRequest", JBool(true)),
      Member("supportsFunctionBreakpoints", JBool(true)),
      Member("supportsConditionalBreakpoints", JBool(true)),
      Member("supportsHitConditionalBreakpoints", JBool(true)),
      Member("supportsDataBreakpoints", JBool(true)),
      Member("supportsInstructionBreakpoints", JBool(true))]))]

  /** The successful response is written exactly as the tests expect. */
  lemma SuccessResponseMessageEncoding()
    ensures EncodeProtocolMessage(ProtocolMessage(1, Response(Responses.Response(1,
              Responses.Success(Responses.Initialize(TestCapabilities))))))
         == TestSuccessMessage
  {
    Types.TestResponseCapabilities();
    Responses.SuccessResponseShape(Responses.Initialize(TestCapabilities));
  }

  /** The tests' successful response object reads back as that response. */
  lemma SuccessResponseMessageDecoding()
    ensures DecodeProtocolMessage(TestSuccessMessage)
         == Ok(ProtocolMessage(1, Response(Responses.Response(1,
              Responses.Success(Responses.Initialize(TestCapabilities))))))
  {
    SuccessResponseMessageEncoding();
    ProtocolMessageRoundTrip(ProtocolMessage(1, Response(Responses.Response(1,
      Responses.Success(Responses.Initialize(TestCapabilities))))));
  }
}
