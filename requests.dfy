/**
 * The request commands: an adjacently tagged union whose tag is `command`
 * and whose payload sits under `arguments`, with the wire tags `attach` and
 * `initialize`, and the `PathFormat` enum.
 */
module Requests {
  import opened Json
  import opened Utils

  // ----- PathFormat -----

  datatype PathFormat = Path | Uri

  /** `PathFormat::default()`. */
  const DefaultPathFormat := Path

  /** The lowercase wire string of each path format. */
  function PathFormatName(p: PathFormat): string {
    match p
    case Path => "path"
    case Uri => "uri"
  }

  /** A path format is read back from exactly its own wire string. */
  function ParsePathFormat(s: string): (r: Option<PathFormat>)
    ensures forall p :: r == Some(p) <==> PathFormatName(p) == s
  {
    if s == "path" then Some(Path)
    else if s == "uri" then Some(Uri)
    else None
  }

  function EncodePathFormat(p: PathFormat): Json {
    JString(PathFormatName(p))
  }

  function DecodePathFormat(j: Json): (r: Result<PathFormat>)
    ensures r.Ok? <==> j == JString("path") || j == JString("uri")
    ensures r.Ok? ==> j == EncodePathFormat(r.value)
    ensures j.JString? && r.Err? ==> r.error == UnknownVariant(j.s)
  {
    DecodeVariant(j, ParsePathFormat)
  }

  /** The default path format is `path`, and it is elided exactly when it is
      the default. */
  lemma PathFormatDefault(p: PathFormat)
    ensures PathFormatName(DefaultPathFormat) == "path"
    ensures EqDefault(p, DefaultPathFormat) <==> p == Path
  {
  }

  // ----- the commands -----

  datatype InitializeArguments = InitializeArguments(
    clientId: Option<string>,
    clientName: Option<string>,
    adapterId: string,
    locale: Option<string>,
    linesStartAt1: bool,
    columnsStartAt1: bool,
    pathFormat: PathFormat,
    supportsVariableType: bool,
    supportsVariablePaging: bool,
    supportsRunInTerminalRequest: bool,
    supportsMemoryReferences: bool,
    supportsProgressReporting: bool,
    supportsInvalidatedEvent: bool)

  datatype RequestCommand =
    | Attach(restart: Option<string>)
    | Initialize(arguments: InitializeArguments)

  /** The wire tag of each command: its camelCase variant name. */
  function CommandName(c: RequestCommand): string {
    match c
    case Attach(_) => "attach"
    case Initialize(_) => "initialize"
  }

  const CommandNames: set<string> := {"attach", "initialize"}

  /** The wire names of the initialize arguments, in declaration order. */
  const InitializeKeys: seq<string> := [
    "clientID", "clientName", "adapterID", "locale", "linesStartAt1", "columnsStartAt1",
    "pathFormat", "supportsVariableType", "supportsVariablePaging",
    "supportsRunInTerminalRequest", "supportsMemoryReferences",
    "supportsProgressReporting", "supportsInvalidatedEvent"]

  /** The encoding of each initialize argument, with `pathFormat` already
      encoded by the caller: either always present (as written) or skipped at
      its default (as the protocol tests expect). */
  function InitializeValues(a: InitializeArguments, pathFormat: Option<Json>): (r: seq<Option<Json>>)
    ensures |r| == |InitializeKeys|
  {
    [SkipNone(a.clientId, JStr),
     SkipNone(a.clientName, JStr),
     Some(JString(a.adapterId)),
     SkipNone(a.locale, JStr),
     Some(JBool(a.linesStartAt1)),
     Some(JBool(a.columnsStartAt1)),
     pathFormat,
     SkipDefault(a.supportsVariableType, false, JBoolean),
     SkipDefault(a.supportsVariablePaging, false, JBoolean),
     SkipDefault(a.supportsRunInTerminalRequest, false, JBoolean),
     SkipDefault(a.supportsMemoryReferences, false, JBoolean),
     SkipDefault(a.supportsProgressReporting, false, JBoolean),
     SkipDefault(a.supportsInvalidatedEvent, false, JBoolean)]
  }

  function InitializeMembers(a: InitializeArguments, pathFormat: Option<Json>): seq<Member> {
    Members(InitializeKeys, InitializeValues(a, pathFormat))
  }

  /** The arguments as the record's attributes encode them: `pathFormat`
      carries only `default`, so it is always written. */
  function EncodeInitializeArgumentsAsWritten(a: InitializeArguments): Json {
    JObject(InitializeMembers(a, Some(EncodePathFormat(a.pathFormat))))
  }

  /** The arguments as the protocol tests expect them: `pathFormat` is
      skipped at its default `path`, as the `supports…` flags are skipped at
      false (the `…StartAt1` flags stay always written). */
  function EncodeInitializeArguments(a: InitializeArguments): Json {
    JObject(InitializeMembers(a, SkipDefault(a.pathFormat, DefaultPathFormat, EncodePathFormat)))
  }

  function DecodeInitializeArguments(o: seq<Member>): (r: Result<InitializeArguments>)
    ensures Get(o, "adapterID") == None ==> r.Err?
    ensures r.Ok? ==> Get(o, "adapterID") == Some(JString(r.value.adapterId))
    ensures r.Ok? && Get(o, "clientID") == None ==> r.value.clientId == None
    ensures r.Ok? && Get(o, "clientName") == None ==> r.value.clientName == None
    ensures r.Ok? && Get(o, "locale") == None ==> r.value.locale == None
    ensures r.Ok? && Get(o, "linesStartAt1") == None ==> r.value.linesStartAt1
    ensures r.Ok? && Get(o, "columnsStartAt1") == None ==> r.value.columnsStartAt1
    ensures r.Ok? && Get(o, "pathFormat") == None ==> r.value.pathFormat == Path
    ensures r.Ok? && Get(o, "supportsVariableType") == None ==> !r.value.supportsVariableType
    ensures r.Ok? && Get(o, "supportsVariablePaging") == None ==> !r.value.supportsVariablePaging
    ensures r.Ok? && Get(o, "supportsRunInTerminalRequest") == None ==> !r.value.supportsRunInTerminalRequest
    ensures r.Ok? && Get(o, "supportsMemoryReferences") == None ==> !r.value.supportsMemoryReferences
    ensures r.Ok? && Get(o, "supportsProgressReporting") == None ==> !r.value.supportsProgressReporting
    ensures r.Ok? && Get(o, "supportsInvalidatedEvent") == None ==> !r.value.supportsInvalidatedEvent
  {
    var clientId :- Optional(o, "clientID", DecodeString);
    var clientName :- Optional(o, "clientName", DecodeString);
    var adapterId :- Required(o, "adapterID", DecodeString);
    var locale :- Optional(o, "locale", DecodeString);
    var linesStartAt1 :- Defaulted(o, "linesStartAt1", DecodeBool, True());
    var columnsStartAt1 :- Defaulted(o, "columnsStartAt1", DecodeBool, True());
    var pathFormat :- Defaulted(o, "pathFormat", DecodePathFormat, DefaultPathFormat);
    var supportsVariableType :- Defaulted(o, "supportsVariableType", DecodeBool, false);
    var supportsVariablePaging :- Defaulted(o, "supportsVariablePaging", DecodeBool, false);
    var supportsRunInTerminalRequest :- Defaulted(o, "supportsRunInTerminalRequest", DecodeBool, false);
    var supportsMemoryReferences :- Defaulted(o, "supportsMemoryReferences", DecodeBool, false);
    var supportsProgressReporting :- Defaulted(o, "supportsProgressReporting", DecodeBool, false);
    var supportsInvalidatedEvent :- Defaulted(o, "supportsInvalidatedEvent", DecodeBool, false);
    Ok(InitializeArguments(
      clientId, clientName, adapterId, locale, linesStartAt1, columnsStartAt1, pathFormat,
      supportsVariableType, supportsVariablePaging, supportsRunInTerminalRequest,
      supportsMemoryReferences, supportsProgressReporting, supportsInvalidatedEvent))
  }

  function EncodeAttachArguments(restart: Option<string>): Json {
    JObject(With("__restart", SkipNone(restart, JStr), []))
  }

  function DecodeAttachArguments(o: seq<Member>): (r: Result<Option<string>>)
    ensures r.Ok? <==> Get(o, "__restart") in {None, Some(JNull)} || (Get(o, "__restart").Some? && Get(o, "__restart").value.JString?)
    ensures r.Ok? ==> (r.value == None <==> Get(o, "__restart") in {None, Some(JNull)})
    ensures r.Ok? && r.value.Some? ==> Get(o, "__restart") == Some(JString(r.value.value))
  {
    Optional(o, "__restart", DecodeString)
  }

  /** The members a command adds to the message object: the tag, then the
      payload. */
  function EncodeRequest(c: RequestCommand): seq<Member> {
    match c
    case Attach(restart) => Tagged("command", "attach", "arguments", Some(EncodeAttachArguments(restart)))
    case Initialize(a) => Tagged("command", "initialize", "arguments", Some(EncodeInitializeArguments(a)))
  }

  function DecodeRequest(o: seq<Member>): (r: Result<RequestCommand>)
    ensures Get(o, "command") == None ==> r == Err(MissingField("command"))
    ensures r.Ok? ==> Get(o, "command") == Some(JString(CommandName(r.value)))
    ensures Get(o, "command").Some? && Get(o, "command").value.JString? && Get(o, "command").value.s !in CommandNames
      ==> r == Err(UnknownVariant(Get(o, "command").value.s))
    ensures Get(o, "command") in {Some(JString("attach")), Some(JString("initialize"))} && Get(o, "arguments") == None
      ==> r == Err(MissingField("arguments"))
  {
    var tag :- Required(o, "command", DecodeString);
    if tag == "attach" then
      var restart :- Content(o, "arguments", DecodeAttachArguments);
      Ok(Attach(restart))
    else if tag == "initialize" then
      var a :- Content(o, "arguments", DecodeInitializeArguments);
      Ok(Initialize(a))
    else
      Err(UnknownVariant(tag))
  }

  // ----- properties -----

  lemma InitializeKeysDistinct()
    ensures DistinctNames(InitializeKeys)
  {
    forall i, j | 0 <= i < j < |InitializeKeys| ensures InitializeKeys[i] != InitializeKeys[j] {
      if i < 4 { } else if i < 8 { } else { }
    }
  }

  /** What object `o` holds under each wire name of the initialize
      arguments when it encodes `a`, with `pathFormat` the member written
      for the path format. */
  ghost predicate HoldsInitialize(o: seq<Member>, a: InitializeArguments, pathFormat: Option<Json>) {
    && Get(o, "clientID") == SkipNone(a.clientId, JStr)
    && Get(o, "clientName") == SkipNone(a.clientName, JStr)
    && Get(o, "adapterID") == Some(JString(a.adapterId))
    && Get(o, "locale") == SkipNone(a.locale, JStr)
    && Get(o, "linesStartAt1") == Some(JBool(a.linesStartAt1))
    && Get(o, "columnsStartAt1") == Some(JBool(a.columnsStartAt1))
    && Get(o, "pathFormat") == pathFormat
    && Get(o, "supportsVariableType") == SkipDefault(a.supportsVariableType, false, JBoolean)
    && Get(o, "supportsVariablePaging") == SkipDefault(a.supportsVariablePaging, false, JBoolean)
    && Get(o, "supportsRunInTerminalRequest") == SkipDefault(a.supportsRunInTerminalRequest, false, JBoolean)
    && Get(o, "supportsMemoryReferences") == SkipDefault(a.supportsMemoryReferences, false, JBoolean)
    && Get(o, "supportsProgressReporting") == SkipDefault(a.supportsProgressReporting, false, JBoolean)
    && Get(o, "supportsInvalidatedEvent") == SkipDefault(a.supportsInvalidatedEvent, false, JBoolean)
  }

  lemma InitializeMembersShape(a: InitializeArguments, pathFormat: Option<Json>)
    ensures HoldsInitialize(InitializeMembers(a, pathFormat), a, pathFormat)
  {
    InitializeKeysDistinct();
    var values := InitializeValues(a, pathFormat);
    GetMembers(InitializeKeys, values, 0);
    GetMembers(InitializeKeys, values, 1);
    GetMembers(InitializeKeys, values, 2);
    GetMembers(InitializeKeys, values, 3);
    GetMembers(InitializeKeys, values, 4);
    GetMembers(InitializeKeys, values, 5);
    GetMembers(InitializeKeys, values, 6);
    GetMembers(InitializeKeys, values, 7);
    GetMembers(InitializeKeys, values, 8);
    GetMembers(InitializeKeys, values, 9);
    GetMembers(InitializeKeys, values, 10);
    GetMembers(InitializeKeys, values, 11);
    GetMembers(InitializeKeys, values, 12);
  }

  /** The arguments of the protocol tests' `initialize` request. */
  const TestArguments := InitializeArguments(
    Some("vscode"), Some("Visual Studio Code"), "mock", Some("de"), true, true, Path,
    true, true, true, false, true, true)

  /** The members the tests expect for them: every field but `pathFormat`
      and `supportsMemoryReferences`, which sit at their defaults. */
  const TestArgumentMembers: seq<Member> := [
    Member("clientID", JString("vscode")), Member("clientName", JString("Visual Studio Code")),
    Member("adapterID", JString("mock")), Member("locale", JString("de")),
    Member("linesStartAt1", JBool(true)), Member("columnsStartAt1", JBool(true)),
    Member("supportsVariableType", JBool(true)), Member("supportsVariablePaging", JBool(true)),
    Member("supportsRunInTerminalRequest", JBool(true)),
    Member("supportsProgressReporting", JBool(true)), Member("supportsInvalidatedEvent", JBool(true))]

  // The test vectors below are proved in small steps (WrittenFrom9 to
  // WrittenFrom0, the TestGiven lookups): computing the 13-field encoding or
  // a lookup in the 12-member literal in one obligation exceeds the
  // solver's budget.

  /** Thirteen field encodings of which only `pathFormat` (6) and
      `supportsMemoryReferences` (10) are skipped. */
  ghost predicate WritesAllButPathAndMemory(keys: seq<string>, values: seq<Option<Json>>) {
    && |keys| == 13 && |values| == 13 && values[6] == None && values[10] == None
    && forall i :: 0 <= i < 13 && i != 6 && i != 10 ==> values[i].Some?
  }

  /** Such a record from field 9 on, then from field 5 on, 2 on and 0 on:
      each field adds its member in order, the two skipped ones nothing. */
  lemma WrittenFrom9(keys: seq<string>, values: seq<Option<Json>>)
    requires WritesAllButPathAndMemory(keys, values)
    ensures Members(keys[9..], values[9..]) == [
      Member(keys[9], values[9].value), Member(keys[11], values[11].value), Member(keys[12], values[12].value)]
  {
    assert keys[13..] == [] && values[13..] == [];
    MembersFrom(keys, values, 12);
    MembersFrom(keys, values, 11);
    MembersFrom(keys, values, 10);
    MembersFrom(keys, values, 9);
  }

  lemma WrittenFrom5(keys: seq<string>, values: seq<Option<Json>>)
    requires WritesAllButPathAndMemory(keys, values)
    ensures Members(keys[5..], values[5..]) == [
      Member(keys[5], values[5].value), Member(keys[7], values[7].value), Member(keys[8], values[8].value),
      Member(keys[9], values[9].value), Member(keys[11], values[11].value), Member(keys[12], values[12].value)]
  {
    WrittenFrom9(keys, values);
    MembersFrom(keys, values, 8);
    MembersFrom(keys, values, 7);
    MembersFrom(keys, values, 6);
    MembersFrom(keys, values, 5);
  }

  lemma WrittenFrom2(keys: seq<string>, values: seq<Option<Json>>)
    requires WritesAllButPathAndMemory(keys, values)
    ensures Members(keys[2..], values[2..]) == [
      Member(keys[2], values[2].value), Member(keys[3], values[3].value),
      Member(keys[4], values[4].value), Member(keys[5], values[5].value),
      Member(keys[7], values[7].value), Member(keys[8], values[8].value),
      Member(keys[9], values[9].value), Member(keys[11], values[11].value), Member(keys[12], values[12].value)]
  {
    WrittenFrom5(keys, values);
    MembersFrom(keys, values, 4);
    MembersFrom(keys, values, 3);
    MembersFrom(keys, values, 2);
  }

  lemma WrittenFrom0(keys: seq<string>, values: seq<Option<Json>>)
    requires WritesAllButPathAndMemory(keys, values)
    ensures Members(keys, values) == [
      Member(keys[0], values[0].value), Member(keys[1], values[1].value),
      Member(keys[2], values[2].value), Member(keys[3], values[3].value),
      Member(keys[4], values[4].value), Member(keys[5], values[5].value),
      Member(keys[7], values[7].value), Member(keys[8], values[8].value),
      Member(keys[9], values[9].value), Member(keys[11], values[11].value), Member(keys[12], values[12].value)]
  {
    WrittenFrom2(keys, values);
    MembersFrom(keys, values, 1);
    MembersFrom(keys, values, 0);
    assert keys[0..] == keys && values[0..] == values;
  }

  /** The tests' arguments are written as the tests expect. */
  lemma TestArgumentsEncoding()
    ensures EncodeInitializeArguments(TestArguments) == JObject(TestArgumentMembers)
  {
    WrittenFrom0(InitializeKeys, InitializeValues(TestArguments, None));
  }

  /** The tests' arguments as the tests give them to the decoder: in
      another order, and with `pathFormat` spelled out. */
  function TestGivenArguments(): seq<Member> {
    With("clientID", Some(JString("vscode")), With("clientName", Some(JString("Visual Studio Code")),
    With("adapterID", Some(JString("mock")), With("pathFormat", Some(JString("path")),
    With("linesStartAt1", Some(JBool(true)), With("columnsStartAt1", Some(JBool(true)),
    TestGivenLaterArguments()))))))
  }

  /** The second half of that object, from `supportsVariableType` on. */
  function TestGivenLaterArguments(): seq<Member> {
    With("supportsVariableType", Some(JBool(true)), With("supportsVariablePaging", Some(JBool(true)),
    With("supportsRunInTerminalRequest", Some(JBool(true)), With("locale", Some(JString("de")),
    With("supportsProgressReporting", Some(JBool(true)), With("supportsInvalidatedEvent", Some(JBool(true)),
    []))))))
  }

  /** Spelled out, that object is these twelve members. */
  lemma TestGivenArgumentsMembers()
    ensures TestGivenArguments() == [
      Member("clientID", JString("vscode")), Member("clientName", JString("Visual Studio Code")),
      Member("adapterID", JString("mock")), Member("pathFormat", JString("path")),
      Member("linesStartAt1", JBool(true)), Member("columnsStartAt1", JBool(true)),
      Member("supportsVariableType", JBool(true)), Member("supportsVariablePaging", JBool(true)),
      Member("supportsRunInTerminalRequest", JBool(true)), Member("locale", JString("de")),
      Member("supportsProgressReporting", JBool(true)), Member("supportsInvalidatedEvent", JBool(true))]
  {
  }

  /** What that object holds under each wire name, a few names at a time. */
  lemma TestGivenClientFields()
    ensures Get(TestGivenArguments(), "clientID") == Some(JString("vscode"))
    ensures Get(TestGivenArguments(), "clientName") == Some(JString("Visual Studio Code"))
    ensures Get(TestGivenArguments(), "adapterID") == Some(JString("mock"))
  {
  }

  lemma TestGivenLocale()
    ensures Get(TestGivenArguments(), "locale") == Some(JString("de"))
  {
  }

  lemma TestGivenFormatFields()
    ensures Get(TestGivenArguments(), "linesStartAt1") == Some(JBool(true))
    ensures Get(TestGivenArguments(), "columnsStartAt1") == Some(JBool(true))
    ensures Get(TestGivenArguments(), "pathFormat") == Some(JString("path"))
  {
  }

  lemma TestGivenSupportsFields()
    ensures Get(TestGivenArguments(), "supportsVariableType") == Some(JBool(true))
    ensures Get(TestGivenArguments(), "supportsVariablePaging") == Some(JBool(true))
    ensures Get(TestGivenArguments(), "supportsRunInTerminalRequest") == Some(JBool(true))
  {
  }

  lemma TestGivenNoMemoryReferences()
    ensures Get(TestGivenArguments(), "supportsMemoryReferences") == None
  {
    TestGivenLaterNoMemoryReferences();
  }

  lemma TestGivenLaterNoMemoryReferences()
    ensures Get(TestGivenLaterArguments(), "supportsMemoryReferences") == None
  {
  }

  lemma TestGivenLateFields()
    ensures Get(TestGivenArguments(), "supportsProgressReporting") == Some(JBool(true))
    ensures Get(TestGivenArguments(), "supportsInvalidatedEvent") == Some(JBool(true))
  {
  }

  /** They decode to the tests' arguments, with `supportsMemoryReferences`
      at its default. */
  lemma TestArgumentsDecoding()
    ensures DecodeInitializeArguments(TestGivenArguments()) == Ok(TestArguments)
  {
    TestGivenClientFields();
    TestGivenLocale();
    TestGivenNoMemoryReferences();
    TestGivenFormatFields();
    TestGivenSupportsFields();
    TestGivenLateFields();
    DecodeHeldInitialize(TestGivenArguments(), TestArguments, Some(JString("path")));
  }

  /** An `initialize` request is its tag followed by its arguments. */
  lemma InitializeRequestMembers(a: InitializeArguments)
    ensures EncodeRequest(Initialize(a))
         == [Member("command", JString("initialize")), Member("arguments", EncodeInitializeArguments(a))]
  {
  }

  /** The tests' request is its tag followed by the tests' arguments. */
  lemma TestRequestEncoding()
    ensures EncodeRequest(Initialize(TestArguments))
         == [Member("command", JString("initialize")), Member("arguments", JObject(TestArgumentMembers))]
  {
    InitializeRequestMembers(TestArguments);
    TestArgumentsEncoding();
  }

  /** The optional strings are omitted exactly when None; the 1-based flags
      are always written; each `supports*` flag is written exactly when true;
      `pathFormat` is written exactly when it is not `path`. */
  lemma InitializeElision(a: InitializeArguments)
    ensures var o := EncodeInitializeArguments(a).fields;
      && (Get(o, "clientID") == None <==> a.clientId == None)
      && (Get(o, "clientName") == None <==> a.clientName == None)
      && (Get(o, "locale") == None <==> a.locale == None)
      && Get(o, "linesStartAt1").Some? && Get(o, "columnsStartAt1").Some?
      && (Get(o, "pathFormat") == None <==> a.pathFormat == Path)
      && (Get(o, "supportsVariableType") == None <==> !a.supportsVariableType)
      && (Get(o, "supportsVariablePaging") == None <==> !a.supportsVariablePaging)
      && (Get(o, "supportsRunInTerminalRequest") == None <==> !a.supportsRunInTerminalRequest)
      && (Get(o, "supportsMemoryReferences") == None <==> !a.supportsMemoryReferences)
      && (Get(o, "supportsProgressReporting") == None <==> !a.supportsProgressReporting)
      && (Get(o, "supportsInvalidatedEvent") == None <==> !a.supportsInvalidatedEvent)
  {
    InitializeMembersShape(a, SkipDefault(a.pathFormat, DefaultPathFormat, EncodePathFormat));
  }

  /** The encoder as written always writes `pathFormat`, even at its default. */
  lemma PathFormatAlwaysWrittenAsWritten(a: InitializeArguments)
    ensures Get(EncodeInitializeArgumentsAsWritten(a).fields, "pathFormat") == Some(JString(PathFormatName(a.pathFormat)))
  {
    InitializeMembersShape(a, Some(EncodePathFormat(a.pathFormat)));
  }

  lemma DecodeInitializeFields(o: seq<Member>, a: InitializeArguments)
    requires Optional(o, "clientID", DecodeString) == Ok(a.clientId)
    requires Optional(o, "clientName", DecodeString) == Ok(a.clientName)
    requires Required(o, "adapterID", DecodeString) == Ok(a.adapterId)
    requires Optional(o, "locale", DecodeString) == Ok(a.locale)
    requires Defaulted(o, "linesStartAt1", DecodeBool, True()) == Ok(a.linesStartAt1)
    requires Defaulted(o, "columnsStartAt1", DecodeBool, True()) == Ok(a.columnsStartAt1)
    requires Defaulted(o, "pathFormat", DecodePathFormat, DefaultPathFormat) == Ok(a.pathFormat)
    requires Defaulted(o, "supportsVariableType", DecodeBool, false) == Ok(a.supportsVariableType)
    requires Defaulted(o, "supportsVariablePaging", DecodeBool, false) == Ok(a.supportsVariablePaging)
    requires Defaulted(o, "supportsRunInTerminalRequest", DecodeBool, false) == Ok(a.supportsRunInTerminalRequest)
    requires Defaulted(o, "supportsMemoryReferences", DecodeBool, false) == Ok(a.supportsMemoryReferences)
    requires Defaulted(o, "supportsProgressReporting", DecodeBool, false) == Ok(a.supportsProgressReporting)
    requires Defaulted(o, "supportsInvalidatedEvent", DecodeBool, false) == Ok(a.supportsInvalidatedEvent)
    ensures DecodeInitializeArguments(o) == Ok(a)
  {
  }

  lemma ReadClientFields(o: seq<Member>, a: InitializeArguments, pathFormat: Option<Json>)
    requires HoldsInitialize(o, a, pathFormat)
    ensures Optional(o, "clientID", DecodeString) == Ok(a.clientId)
    ensures Optional(o, "clientName", DecodeString) == Ok(a.clientName)
    ensures Required(o, "adapterID", DecodeString) == Ok(a.adapterId)
    ensures Optional(o, "locale", DecodeString) == Ok(a.locale)
  {
    OptionalRoundTrip(o, "clientID", a.clientId, JStr, DecodeString);
    OptionalRoundTrip(o, "clientName", a.clientName, JStr, DecodeString);
    RequiredRoundTrip(o, "adapterID", a.adapterId, JStr, DecodeString);
    OptionalRoundTrip(o, "locale", a.locale, JStr, DecodeString);
  }

  lemma ReadFormatFields(o: seq<Member>, a: InitializeArguments, pathFormat: Option<Json>)
    requires HoldsInitialize(o, a, pathFormat)
    requires pathFormat == None ==> a.pathFormat == Path
    requires pathFormat.Some? ==> pathFormat == Some(EncodePathFormat(a.pathFormat))
    ensures Defaulted(o, "linesStartAt1", DecodeBool, True()) == Ok(a.linesStartAt1)
    ensures Defaulted(o, "columnsStartAt1", DecodeBool, True()) == Ok(a.columnsStartAt1)
    ensures Defaulted(o, "pathFormat", DecodePathFormat, DefaultPathFormat) == Ok(a.pathFormat)
  {
    DefaultedRoundTrip(o, "linesStartAt1", a.linesStartAt1, True(), JBoolean, DecodeBool);
    DefaultedRoundTrip(o, "columnsStartAt1", a.columnsStartAt1, True(), JBoolean, DecodeBool);
    DefaultedRoundTrip(o, "pathFormat", a.pathFormat, DefaultPathFormat, EncodePathFormat, DecodePathFormat);
  }

  lemma ReadSupportsFields(o: seq<Member>, a: InitializeArguments, pathFormat: Option<Json>)
    requires HoldsInitialize(o, a, pathFormat)
    ensures Defaulted(o, "supportsVariableType", DecodeBool, false) == Ok(a.supportsVariableType)
    ensures Defaulted(o, "supportsVariablePaging", DecodeBool, false) == Ok(a.supportsVariablePaging)
    ensures Defaulted(o, "supportsRunInTerminalRequest", DecodeBool, false) == Ok(a.supportsRunInTerminalRequest)
    ensures Defaulted(o, "supportsMemoryReferences", DecodeBool, false) == Ok(a.supportsMemoryReferences)
    ensures Defaulted(o, "supportsProgressReporting", DecodeBool, false) == Ok(a.supportsProgressReporting)
    ensures Defaulted(o, "supportsInvalidatedEvent", DecodeBool, false) == Ok(a.supportsInvalidatedEvent)
  {
    DefaultedRoundTrip(o, "supportsVariableType", a.supportsVariableType, false, JBoolean, DecodeBool);
    DefaultedRoundTrip(o, "supportsVariablePaging", a.supportsVariablePaging, false, JBoolean, DecodeBool);
    DefaultedRoundTrip(o, "supportsRunInTerminalRequest", a.supportsRunInTerminalRequest, false, JBoolean, DecodeBool);
    DefaultedRoundTrip(o, "supportsMemoryReferences", a.supportsMemoryReferences, false, JBoolean, DecodeBool);
    DefaultedRoundTrip(o, "supportsProgressReporting", a.supportsProgressReporting, false, JBoolean, DecodeBool);
    DefaultedRoundTrip(o, "supportsInvalidatedEvent", a.supportsInvalidatedEvent, false, JBoolean, DecodeBool);
  }

  /** Any object holding the encodings of `a` under the wire names, in any
      order and beside any other members, decodes to `a`. */
  lemma DecodeHeldInitialize(o: seq<Member>, a: InitializeArguments, pathFormat: Option<Json>)
    requires HoldsInitialize(o, a, pathFormat)
    requires pathFormat == None ==> a.pathFormat == Path
    requires pathFormat.Some? ==> pathFormat == Some(EncodePathFormat(a.pathFormat))
    ensures DecodeInitializeArguments(o) == Ok(a)
  {
    ReadClientFields(o, a, pathFormat);
    ReadFormatFields(o, a, pathFormat);
    ReadSupportsFields(o, a, pathFormat);
    DecodeInitializeFields(o, a);
  }

  lemma InitializeArgumentsRoundTrip(a: InitializeArguments)
    ensures DecodeInitializeArguments(EncodeInitializeArguments(a).fields) == Ok(a)
    ensures DecodeInitializeArguments(EncodeInitializeArgumentsAsWritten(a).fields) == Ok(a)
  {
    var skipped := SkipDefault(a.pathFormat, DefaultPathFormat, EncodePathFormat);
    InitializeMembersShape(a, skipped);
    DecodeHeldInitialize(InitializeMembers(a, skipped), a, skipped);
    var written := Some(EncodePathFormat(a.pathFormat));
    InitializeMembersShape(a, written);
    DecodeHeldInitialize(InitializeMembers(a, written), a, written);
  }

  /** `__restart` is the literal key, omitted when None. */
  lemma AttachElision(restart: Option<string>)
    ensures Get(EncodeAttachArguments(restart).fields, "__restart") == SkipNone(restart, JStr)
    ensures EncodeAttachArguments(restart) == JObject([]) <==> restart == None
  {
  }

  lemma AttachRoundTrip(restart: Option<string>)
    ensures DecodeAttachArguments(EncodeAttachArguments(restart).fields) == Ok(restart)
  {
    OptionalRoundTrip(EncodeAttachArguments(restart).fields, "__restart", restart, JStr, DecodeString);
  }

  /** An object tagged `initialize` whose `arguments` decode to `a` reads
      back as `Initialize(a)`, whatever else it holds. */
  lemma DecodeHeldInitializeRequest(o: seq<Member>, args: seq<Member>, a: InitializeArguments)
    requires Get(o, "command") == Some(JString("initialize"))
    requires Get(o, "arguments") == Some(JObject(args)) && DecodeInitializeArguments(args) == Ok(a)
    ensures DecodeRequest(o) == Ok(Initialize(a))
  {
    ContentRoundTrip(o, "arguments", args, a, DecodeInitializeArguments);
  }

  /** decode(encode(c)) == c for every command. */
  lemma RequestRoundTrip(c: RequestCommand)
    ensures DecodeRequest(EncodeRequest(c)) == Ok(c)
  {
    match c
    case Attach(restart) => AttachRequestRoundTrip(restart);
    case Initialize(a) => InitializeRequestRoundTrip(a);
  }

  lemma AttachRequestRoundTrip(restart: Option<string>)
    ensures DecodeRequest(EncodeRequest(Attach(restart))) == Ok(Attach(restart))
  {
    GetTagged("command", "attach", "arguments", Some(EncodeAttachArguments(restart)));
    AttachRoundTrip(restart);
  }

  lemma InitializeRequestRoundTrip(a: InitializeArguments)
    ensures DecodeRequest(EncodeRequest(Initialize(a))) == Ok(Initialize(a))
  {
    var o := EncodeRequest(Initialize(a));
    GetTagged("command", "initialize", "arguments", Some(EncodeInitializeArguments(a)));
    InitializeArgumentsRoundTrip(a);
    ContentRoundTrip(o, "arguments", EncodeInitializeArguments(a).fields, a, DecodeInitializeArguments);
  }

  /** A request is written as its tag and its arguments and nothing else. */
  lemma RequestOnlyOwnKeys(c: RequestCommand, k: string)
    requires k != "command" && k != "arguments"
    ensures Get(EncodeRequest(c), k) == None
  {
  }

  /** Decoding reads members by name only. */
  lemma DecodeRequestReadsByName(a: seq<Member>, b: seq<Member>)
    requires SameFields(a, b)
    ensures DecodeRequest(a) == DecodeRequest(b)
  {
    assert Get(a, "command") == Get(b, "command");
    assert Get(a, "arguments") == Get(b, "arguments");
  }
}
