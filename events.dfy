/**
 * The events a debug adapter sends: an adjacently tagged union whose tag is
 * `event` and whose payload sits under `body`, one payload record per event,
 * and the fieldless enums those records use, each with its exact wire
 * strings.
 */
module Events {
  import opened Json
  import opened Utils
  import opened Types

  // ----- the fieldless enums -----

  datatype BreakpointEventReason = Changed | New | Removed

  function BreakpointEventReasonName(e: BreakpointEventReason): string {
    match e
    case Changed => "changed"
    case New => "new"
    case Removed => "removed"
  }

  function ParseBreakpointEventReason(s: string): (r: Option<BreakpointEventReason>)
    ensures forall e :: r == Some(e) <==> BreakpointEventReasonName(e) == s
  {
    if s == "changed" then Some(BreakpointEventReason.Changed)
    else if s == "new" then Some(BreakpointEventReason.New)
    else if s == "removed" then Some(BreakpointEventReason.Removed)
    else None
  }

  datatype LoadedSourceEventReason = New | Changed | Removed

  function LoadedSourceEventReasonName(e: LoadedSourceEventReason): string {
    match e
    case New => "new"
    case Changed => "changed"
    case Removed => "removed"
  }

  function ParseLoadedSourceEventReason(s: string): (r: Option<LoadedSourceEventReason>)
    ensures forall e :: r == Some(e) <==> LoadedSourceEventReasonName(e) == s
  {
    if s == "new" then Some(LoadedSourceEventReason.New)
    else if s == "changed" then Some(LoadedSourceEventReason.Changed)
    else if s == "removed" then Some(LoadedSourceEventReason.Removed)
    else None
  }

  datatype ModuleEventReason = New | Changed | Removed

  function ModuleEventReasonName(e: ModuleEventReason): string {
    match e
    case New => "new"
    case Changed => "changed"
    case Removed => "removed"
  }

  function ParseModuleEventReason(s: string): (r: Option<ModuleEventReason>)
    ensures forall e :: r == Some(e) <==> ModuleEventReasonName(e) == s
  {
    if s == "new" then Some(ModuleEventReason.New)
    else if s == "changed" then Some(ModuleEventReason.Changed)
    else if s == "removed" then Some(ModuleEventReason.Removed)
    else None
  }

  datatype OutputCategory = Console | Important | Stdout | Stderr | Telemetry

  /** `OutputCategory::default()`. */
  const DefaultOutputCategory := Console

  function OutputCategoryName(e: OutputCategory): string {
    match e
    case Console => "console"
    case Important => "important"
    case Stdout => "stdout"
    case Stderr => "stderr"
    case Telemetry => "telemetry"
  }

  function ParseOutputCategory(s: string): (r: Option<OutputCategory>)
    ensures forall e :: r == Some(e) <==> OutputCategoryName(e) == s
  {
    if s == "console" then Some(Console)
    else if s == "important" then Some(Important)
    else if s == "stdout" then Some(Stdout)
    else if s == "stderr" then Some(Stderr)
    else if s == "telemetry" then Some(Telemetry)
    else None
  }

  /** For the output category `eq_default` holds only of `console`. */
  lemma OutputCategoryEqDefault(c: OutputCategory)
    ensures EqDefault(c, DefaultOutputCategory) <==> c == Console
    ensures OutputCategoryName(DefaultOutputCategory) == "console"
  {
  }

  datatype OutputGroup = Start | StartCollapsed | End

  function OutputGroupName(e: OutputGroup): string {
    match e
    case Start => "start"
    case StartCollapsed => "startCollapsed"
    case End => "end"
  }

  function ParseOutputGroup(s: string): (r: Option<OutputGroup>)
    ensures forall e :: r == Some(e) <==> OutputGroupName(e) == s
  {
    if s == "start" then Some(Start)
    else if s == "startCollapsed" then Some(StartCollapsed)
    else if s == "end" then Some(End)
    else None
  }

  datatype ProcessStartMethod = Launch | Attach | AttachForSuspendedLaunch

  function ProcessStartMethodName(e: ProcessStartMethod): string {
    match e
    case Launch => "launch"
    case Attach => "attach"
    case AttachForSuspendedLaunch => "attachForSuspendedLaunch"
  }

  function ParseProcessStartMethod(s: string): (r: Option<ProcessStartMethod>)
    ensures forall e :: r == Some(e) <==> ProcessStartMethodName(e) == s
  {
    if s == "launch" then Some(Launch)
    else if s == "attach" then Some(Attach)
    else if s == "attachForSuspendedLaunch" then Some(AttachForSuspendedLaunch)
    else None
  }

  datatype StoppedEventReason =
    | Step | Breakpoint | Exception | Pause | Entry | Goto
    | FunctionBreakpoint | DataBreakpoint | InstructionBreakpoint

  /** The wire strings; three of them contain a space. */
  function StoppedEventReasonName(e: StoppedEventReason): string {
    match e
    case Step => "step"
    case Breakpoint => "breakpoint"
    case Exception => "exception"
    case Pause => "pause"
    case Entry => "entry"
    case Goto => "goto"
    case FunctionBreakpoint => "function breakpoint"
    case DataBreakpoint => "data breakpoint"
    case InstructionBreakpoint => "instruction breakpoint"
  }

  function ParseStoppedEventReason(s: string): (r: Option<StoppedEventReason>)
    ensures forall e :: r == Some(e) <==> StoppedEventReasonName(e) == s
  {
    if s == "step" then Some(Step)
    else if s == "breakpoint" then Some(StoppedEventReason.Breakpoint)
    else if s == "exception" then Some(Exception)
    else if s == "pause" then Some(Pause)
    else if s == "entry" then Some(Entry)
    else if s == "goto" then Some(Goto)
    else if s == "function breakpoint" then Some(FunctionBreakpoint)
    else if s == "data breakpoint" then Some(DataBreakpoint)
    else if s == "instruction breakpoint" then Some(InstructionBreakpoint)
    else None
  }

  datatype ThreadEventReason = Started | Exited

  function ThreadEventReasonName(e: ThreadEventReason): string {
    match e
    case Started => "started"
    case Exited => "exited"
  }

  function ParseThreadEventReason(s: string): (r: Option<ThreadEventReason>)
    ensures forall e :: r == Some(e) <==> ThreadEventReasonName(e) == s
  {
    if s == "started" then Some(Started)
    else if s == "exited" then Some(ThreadEventReason.Exited)
    else None
  }

  // Encoders and decoders of the enums, as function values for the field
  // policy.

  function EncodeBreakpointEventReason(e: BreakpointEventReason): Json { JString(BreakpointEventReasonName(e)) }
  function DecodeBreakpointEventReason(j: Json): Result<BreakpointEventReason> { DecodeVariant(j, ParseBreakpointEventReason) }
  function EncodeLoadedSourceEventReason(e: LoadedSourceEventReason): Json { JString(LoadedSourceEventReasonName(e)) }
  function DecodeLoadedSourceEventReason(j: Json): Result<LoadedSourceEventReason> { DecodeVariant(j, ParseLoadedSourceEventReason) }
  function EncodeModuleEventReason(e: ModuleEventReason): Json { JString(ModuleEventReasonName(e)) }
  function DecodeModuleEventReason(j: Json): Result<ModuleEventReason> { DecodeVariant(j, ParseModuleEventReason) }
  function EncodeOutputCategory(e: OutputCategory): Json { JString(OutputCategoryName(e)) }
  function DecodeOutputCategory(j: Json): Result<OutputCategory> { DecodeVariant(j, ParseOutputCategory) }
  function EncodeOutputGroup(e: OutputGroup): Json { JString(OutputGroupName(e)) }
  function DecodeOutputGroup(j: Json): Result<OutputGroup> { DecodeVariant(j, ParseOutputGroup) }
  function EncodeProcessStartMethod(e: ProcessStartMethod): Json { JString(ProcessStartMethodName(e)) }
  function DecodeProcessStartMethod(j: Json): Result<ProcessStartMethod> { DecodeVariant(j, ParseProcessStartMethod) }
  function EncodeStoppedEventReason(e: StoppedEventReason): Json { JString(StoppedEventReasonName(e)) }
  function DecodeStoppedEventReason(j: Json): Result<StoppedEventReason> { DecodeVariant(j, ParseStoppedEventReason) }
  function EncodeThreadEventReason(e: ThreadEventReason): Json { JString(ThreadEventReasonName(e)) }
  function DecodeThreadEventReason(j: Json): Result<ThreadEventReason> { DecodeVariant(j, ParseThreadEventReason) }

  /** Each enum decodes from exactly its own wire strings, and a string of
      none of its variants is reported as an unknown variant. */
  lemma EnumsDecodeExactly(s: string)
    ensures forall e :: DecodeStoppedEventReason(JString(s)) == Ok(e) <==> StoppedEventReasonName(e) == s
    ensures forall e :: DecodeOutputCategory(JString(s)) == Ok(e) <==> OutputCategoryName(e) == s
    ensures forall e :: DecodeOutputGroup(JString(s)) == Ok(e) <==> OutputGroupName(e) == s
    ensures forall e :: DecodeProcessStartMethod(JString(s)) == Ok(e) <==> ProcessStartMethodName(e) == s
    ensures forall e :: DecodeBreakpointEventReason(JString(s)) == Ok(e) <==> BreakpointEventReasonName(e) == s
    ensures forall e :: DecodeLoadedSourceEventReason(JString(s)) == Ok(e) <==> LoadedSourceEventReasonName(e) == s
    ensures forall e :: DecodeModuleEventReason(JString(s)) == Ok(e) <==> ModuleEventReasonName(e) == s
    ensures forall e :: DecodeThreadEventReason(JString(s)) == Ok(e) <==> ThreadEventReasonName(e) == s
    ensures DecodeStoppedEventReason(JString(s)).Err? ==> DecodeStoppedEventReason(JString(s)) == Err(UnknownVariant(s))
    ensures DecodeOutputCategory(JString(s)).Err? ==> DecodeOutputCategory(JString(s)) == Err(UnknownVariant(s))
    ensures DecodeOutputGroup(JString(s)).Err? ==> DecodeOutputGroup(JString(s)) == Err(UnknownVariant(s))
    ensures DecodeProcessStartMethod(JString(s)).Err? ==> DecodeProcessStartMethod(JString(s)) == Err(UnknownVariant(s))
    ensures DecodeBreakpointEventReason(JString(s)).Err?
         ==> DecodeBreakpointEventReason(JString(s)) == Err(UnknownVariant(s))
    ensures DecodeLoadedSourceEventReason(JString(s)).Err?
         ==> DecodeLoadedSourceEventReason(JString(s)) == Err(UnknownVariant(s))
    ensures DecodeModuleEventReason(JString(s)).Err? ==> DecodeModuleEventReason(JString(s)) == Err(UnknownVariant(s))
    ensures DecodeThreadEventReason(JString(s)).Err? ==> DecodeThreadEventReason(JString(s)) == Err(UnknownVariant(s))
  {
  }

  // ----- types this model keeps opaque -----

  /** `Breakpoint`, `Source` and `Module` are records defined outside this
      model; their objects are kept member for member. */
  type Breakpoint = seq<Member>
  type Source = seq<Member>
  type Module = seq<Member>

  function EncodeOpaque(o: seq<Member>): Json {
    JObject(o)
  }

  // ----- the payload records -----

  datatype BreakpointEventBody = BreakpointEventBody(reason: BreakpointEventReason, breakpoint: Breakpoint)
  datatype CapabilitiesEventBody = CapabilitiesEventBody(capabilities: Capabilities)
  datatype ContinuedEventBody = ContinuedEventBody(threadId: i32, allThreadsContinued: bool)
  datatype ExitedEventBody = ExitedEventBody(exitCode: i32)
  /** An invalidated area is a string of the protocol's open set. */
  datatype InvalidatedEventBody = InvalidatedEventBody(areas: seq<string>, threadId: Option<i32>, stackFrameId: Option<i32>)
  datatype LoadedSourceEventBody = LoadedSourceEventBody(reason: LoadedSourceEventReason, source: Source)
  datatype ModuleEventBody = ModuleEventBody(reason: ModuleEventReason, mod: Module)
  datatype OutputEventBody = OutputEventBody(
    category: OutputCategory,
    output: string,
    group: Option<OutputGroup>,
    variablesReference: Option<i32>,
    source: Option<Source>,
    line: Option<i32>,
    column: Option<i32>,
    data: Option<Json>)
  datatype ProcessEventBody = ProcessEventBody(
    name: string,
    systemProcessId: Option<i32>,
    isLocalProcess: Option<bool>,
    startMethod: Option<ProcessStartMethod>,
    pointerSize: Option<i32>)
  datatype ProgressEndEventBody = ProgressEndEventBody(progressId: string, message: Option<string>)
  datatype ProgressStartEventBody = ProgressStartEventBody(
    progressId: string,
    title: string,
    requestId: Option<i32>,
    cancellable: bool,
    message: Option<string>,
    percentage: Option<u8>)
  datatype ProgressUpdateEventBody = ProgressUpdateEventBody(progressId: string, message: Option<string>, percentage: Option<u8>)
  datatype StoppedEventBody = StoppedEventBody(
    reason: StoppedEventReason,
    description: Option<string>,
    threadId: Option<i32>,
    preserveFocusHint: bool,
    text: Option<string>,
    allThreadsStopped: bool,
    hitBreakpointIds: seq<i32>)
  datatype TerminatedEventBody = TerminatedEventBody(restart: Option<Json>)
  datatype ThreadEventBody = ThreadEventBody(reason: ThreadEventReason, threadId: i32)

  function DecodeStrings(j: Json): Result<seq<string>> {
    DecodeArray(j, DecodeString)
  }

  function DecodeI32s(j: Json): Result<seq<i32>> {
    DecodeArray(j, DecodeI32)
  }

  // ----- encoders: the members of each record, in declaration order -----

  const BreakpointKeys: seq<string> := ["reason", "breakpoint"]

  function BreakpointValues(b: BreakpointEventBody): (r: seq<Option<Json>>)
    ensures |r| == |BreakpointKeys|
  {
    [Some(EncodeBreakpointEventReason(b.reason)),
     Some(EncodeOpaque(b.breakpoint))]
  }

  function EncodeBreakpointBody(b: BreakpointEventBody): Json {
    JObject(Members(BreakpointKeys, BreakpointValues(b)))
  }

  const CapabilitiesKeys: seq<string> := ["capabilities"]

  function CapabilitiesValues(b: CapabilitiesEventBody): (r: seq<Option<Json>>)
    ensures |r| == |CapabilitiesKeys|
  {
    [Some(EncodeCapabilities(b.capabilities))]
  }

  function EncodeCapabilitiesBody(b: CapabilitiesEventBody): Json {
    JObject(Members(CapabilitiesKeys, CapabilitiesValues(b)))
  }

  const ContinuedKeys: seq<string> := ["threadId", "allThreadsContinued"]

  function ContinuedValues(b: ContinuedEventBody): (r: seq<Option<Json>>)
    ensures |r| == |ContinuedKeys|
  {
    [Some(EncodeI32(b.threadId)),
     SkipDefault(b.allThreadsContinued, false, JBoolean)]
  }

  function EncodeContinuedBody(b: ContinuedEventBody): Json {
    JObject(Members(ContinuedKeys, ContinuedValues(b)))
  }

  const ExitedKeys: seq<string> := ["exitCode"]

  function ExitedValues(b: ExitedEventBody): (r: seq<Option<Json>>)
    ensures |r| == |ExitedKeys|
  {
    [Some(EncodeI32(b.exitCode))]
  }

  function EncodeExitedBody(b: ExitedEventBody): Json {
    JObject(Members(ExitedKeys, ExitedValues(b)))
  }

  const InvalidatedKeys: seq<string> := ["areas", "threadId", "stackFrameId"]

  function InvalidatedValues(b: InvalidatedEventBody): (r: seq<Option<Json>>)
    ensures |r| == |InvalidatedKeys|
  {
    [SkipEmpty(b.areas, JStr),
     SkipNone(b.threadId, EncodeI32),
     SkipNone(b.stackFrameId, EncodeI32)]
  }

  function EncodeInvalidatedBody(b: InvalidatedEventBody): Json {
    JObject(Members(InvalidatedKeys, InvalidatedValues(b)))
  }

  const LoadedSourceKeys: seq<string> := ["reason", "source"]

  function LoadedSourceValues(b: LoadedSourceEventBody): (r: seq<Option<Json>>)
    ensures |r| == |LoadedSourceKeys|
  {
    [Some(EncodeLoadedSourceEventReason(b.reason)),
     Some(EncodeOpaque(b.source))]
  }

  function EncodeLoadedSourceBody(b: LoadedSourceEventBody): Json {
    JObject(Members(LoadedSourceKeys, LoadedSourceValues(b)))
  }

  const ModuleKeys: seq<string> := ["reason", "module"]

  function ModuleValues(b: ModuleEventBody): (r: seq<Option<Json>>)
    ensures |r| == |ModuleKeys|
  {
    [Some(EncodeModuleEventReason(b.reason)),
     Some(EncodeOpaque(b.mod))]
  }

  function EncodeModuleBody(b: ModuleEventBody): Json {
    JObject(Members(ModuleKeys, ModuleValues(b)))
  }

  const OutputKeys: seq<string> := ["category", "output", "group", "variablesReference", "source", "line", "column", "data"]

  function OutputValues(b: OutputEventBody): (r: seq<Option<Json>>)
    ensures |r| == |OutputKeys|
  {
    [SkipDefault(b.category, DefaultOutputCategory, EncodeOutputCategory),
     Some(JStr(b.output)),
     SkipNone(b.group, EncodeOutputGroup),
     SkipNone(b.variablesReference, EncodeI32),
     SkipNone(b.source, EncodeOpaque),
     SkipNone(b.line, EncodeI32),
     SkipNone(b.column, EncodeI32),
     b.data]
  }

  function EncodeOutputBody(b: OutputEventBody): Json {
    JObject(Members(OutputKeys, OutputValues(b)))
  }

  const ProcessKeys: seq<string> := ["name", "systemProcessId", "isLocalProcess", "startMethod", "pointerSize"]

  function ProcessValues(b: ProcessEventBody): (r: seq<Option<Json>>)
    ensures |r| == |ProcessKeys|
  {
    [Some(JStr(b.name)),
     SkipNone(b.systemProcessId, EncodeI32),
     SkipNone(b.isLocalProcess, JBoolean),
     SkipNone(b.startMethod, EncodeProcessStartMethod),
     SkipNone(b.pointerSize, EncodeI32)]
  }

  function EncodeProcessBody(b: ProcessEventBody): Json {
    JObject(Members(ProcessKeys, ProcessValues(b)))
  }

  const ProgressEndKeys: seq<string> := ["progressId", "message"]

  function ProgressEndValues(b: ProgressEndEventBody): (r: seq<Option<Json>>)
    ensures |r| == |ProgressEndKeys|
  {
    [Some(JStr(b.progressId)),
     SkipNone(b.message, JStr)]
  }

  function EncodeProgressEndBody(b: ProgressEndEventBody): Json {
    JObject(Members(ProgressEndKeys, ProgressEndValues(b)))
  }

  const ProgressStartKeys: seq<string> := ["progressId", "title", "requestId", "cancellable", "message", "percentage"]

  function ProgressStartValues(b: ProgressStartEventBody): (r: seq<Option<Json>>)
    ensures |r| == |ProgressStartKeys|
  {
    [Some(JStr(b.progressId)),
     Some(JStr(b.title)),
     SkipNone(b.requestId, EncodeI32),
     SkipDefault(b.cancellable, false, JBoolean),
     SkipNone(b.message, JStr),
     SkipNone(b.percentage, EncodeU8)]
  }

  function EncodeProgressStartBody(b: ProgressStartEventBody): Json {
    JObject(Members(ProgressStartKeys, ProgressStartValues(b)))
  }

  const ProgressUpdateKeys: seq<string> := ["progressId", "message", "percentage"]

  function ProgressUpdateValues(b: ProgressUpdateEventBody): (r: seq<Option<Json>>)
    ensures |r| == |ProgressUpdateKeys|
  {
    [Some(JStr(b.progressId)),
     SkipNone(b.message, JStr),
     SkipNone(b.percentage, EncodeU8)]
  }

  function EncodeProgressUpdateBody(b: ProgressUpdateEventBody): Json {
    JObject(Members(ProgressUpdateKeys, ProgressUpdateValues(b)))
  }

  const StoppedKeys: seq<string> := ["reason", "description", "threadId", "preserveFocusHint", "text", "allThreadsStopped", "hitBreakpointIds"]

  function StoppedValues(b: StoppedEventBody): (r: seq<Option<Json>>)
    ensures |r| == |StoppedKeys|
  {
    [Some(EncodeStoppedEventReason(b.reason)),
     SkipNone(b.description, JStr),
     SkipNone(b.threadId, EncodeI32),
     SkipDefault(b.preserveFocusHint, false, JBoolean),
     SkipNone(b.text, JStr),
     SkipDefault(b.allThreadsStopped, false, JBoolean),
     SkipEmpty(b.hitBreakpointIds, EncodeI32)]
  }

  function EncodeStoppedBody(b: StoppedEventBody): Json {
    JObject(Members(StoppedKeys, StoppedValues(b)))
  }

  const TerminatedKeys: seq<string> := ["restart"]

  function TerminatedValues(b: TerminatedEventBody): (r: seq<Option<Json>>)
    ensures |r| == |TerminatedKeys|
  {
    [b.restart]
  }

  function EncodeTerminatedBody(b: TerminatedEventBody): Json {
    JObject(Members(TerminatedKeys, TerminatedValues(b)))
  }

  const ThreadKeys: seq<string> := ["reason", "threadId"]

  function ThreadValues(b: ThreadEventBody): (r: seq<Option<Json>>)
    ensures |r| == |ThreadKeys|
  {
    [Some(EncodeThreadEventReason(b.reason)),
     Some(EncodeI32(b.threadId))]
  }

  function EncodeThreadBody(b: ThreadEventBody): Json {
    JObject(Members(ThreadKeys, ThreadValues(b)))
  }

  // ----- decoders: the fields in declaration order -----

  function DecodeBreakpointBody(o: seq<Member>): (r: Result<BreakpointEventBody>)
    ensures Get(o, "reason") == None ==> r == Err(MissingField("reason"))
    ensures Get(o, "breakpoint") == None ==> r.Err?
    ensures r.Ok? <==> (exists e :: Get(o, "reason") == Some(JString(BreakpointEventReasonName(e))))
                       && Get(o, "breakpoint").Some? && Get(o, "breakpoint").value.JObject?
    ensures r.Ok? ==> Get(o, "reason") == Some(JString(BreakpointEventReasonName(r.value.reason)))
    ensures r.Ok? ==> Get(o, "breakpoint") == Some(JObject(r.value.breakpoint))
  {
    var reason :- Required(o, "reason", DecodeBreakpointEventReason);
    var breakpoint :- Required(o, "breakpoint", DecodeObject);
    Ok(BreakpointEventBody(reason, breakpoint))
  }

  function DecodeCapabilitiesBody(o: seq<Member>): (r: Result<CapabilitiesEventBody>)
    ensures Get(o, "capabilities") == None ==> r == Err(MissingField("capabilities"))
  {
    var capabilities :- Required(o, "capabilities", DecodeCapabilities);
    Ok(CapabilitiesEventBody(capabilities))
  }

  function DecodeContinuedBody(o: seq<Member>): (r: Result<ContinuedEventBody>)
    ensures Get(o, "threadId") == None ==> r == Err(MissingField("threadId"))
    ensures r.Ok? ==> Get(o, "threadId") == Some(JInt(r.value.threadId))
    ensures r.Ok? && Get(o, "allThreadsContinued") == None ==> !r.value.allThreadsContinued
  {
    var threadId :- Required(o, "threadId", DecodeI32);
    var allThreadsContinued :- Defaulted(o, "allThreadsContinued", DecodeBool, false);
    Ok(ContinuedEventBody(threadId, allThreadsContinued))
  }

  function DecodeExitedBody(o: seq<Member>): (r: Result<ExitedEventBody>)
    ensures Get(o, "exitCode") == None ==> r == Err(MissingField("exitCode"))
    ensures r.Ok? <==> Get(o, "exitCode").Some? && Get(o, "exitCode").value.JInt?
                       && -0x8000_0000 <= Get(o, "exitCode").value.n < 0x8000_0000
    ensures r.Ok? ==> Get(o, "exitCode") == Some(JInt(r.value.exitCode))
  {
    var exitCode :- Required(o, "exitCode", DecodeI32);
    Ok(ExitedEventBody(exitCode))
  }

  function DecodeInvalidatedBody(o: seq<Member>): (r: Result<InvalidatedEventBody>)
    ensures r.Ok? && Get(o, "areas") == None ==> r.value.areas == []
    ensures r.Ok? && Get(o, "areas").Some? ==>
              Get(o, "areas").value.JArray? && |Get(o, "areas").value.items| == |r.value.areas|
              && forall i :: 0 <= i < |r.value.areas| ==> Get(o, "areas").value.items[i] == JString(r.value.areas[i])
    ensures r.Ok? ==> (r.value.threadId == None <==> Get(o, "threadId") in {None, Some(JNull)})
    ensures r.Ok? && r.value.threadId.Some? ==> Get(o, "threadId") == Some(JInt(r.value.threadId.value))
    ensures r.Ok? ==> (r.value.stackFrameId == None <==> Get(o, "stackFrameId") in {None, Some(JNull)})
    ensures r.Ok? && r.value.stackFrameId.Some? ==> Get(o, "stackFrameId") == Some(JInt(r.value.stackFrameId.value))
  {
    var areas :- Defaulted(o, "areas", DecodeStrings, []);
    var threadId :- Optional(o, "threadId", DecodeI32);
    var stackFrameId :- Optional(o, "stackFrameId", DecodeI32);
    Ok(InvalidatedEventBody(areas, threadId, stackFrameId))
  }

  function DecodeLoadedSourceBody(o: seq<Member>): (r: Result<LoadedSourceEventBody>)
    ensures Get(o, "reason") == None ==> r == Err(MissingField("reason"))
    ensures Get(o, "source") == None ==> r.Err?
    ensures r.Ok? <==> (exists e :: Get(o, "reason") == Some(JString(LoadedSourceEventReasonName(e))))
                       && Get(o, "source").Some? && Get(o, "source").value.JObject?
    ensures r.Ok? ==> Get(o, "reason") == Some(JString(LoadedSourceEventReasonName(r.value.reason)))
    ensures r.Ok? ==> Get(o, "source") == Some(JObject(r.value.source))
  {
    var reason :- Required(o, "reason", DecodeLoadedSourceEventReason);
    var source :- Required(o, "source", DecodeObject);
    Ok(LoadedSourceEventBody(reason, source))
  }

  function DecodeModuleBody(o: seq<Member>): (r: Result<ModuleEventBody>)
    ensures Get(o, "reason") == None ==> r == Err(MissingField("reason"))
    ensures Get(o, "module") == None ==> r.Err?
    ensures r.Ok? <==> (exists e :: Get(o, "reason") == Some(JString(ModuleEventReasonName(e))))
                       && Get(o, "module").Some? && Get(o, "module").value.JObject?
    ensures r.Ok? ==> Get(o, "reason") == Some(JString(ModuleEventReasonName(r.value.reason)))
    ensures r.Ok? ==> Get(o, "module") == Some(JObject(r.value.mod))
  {
    var reason :- Required(o, "reason", DecodeModuleEventReason);
    var mod :- Required(o, "module", DecodeObject);
    Ok(ModuleEventBody(reason, mod))
  }

  function DecodeOutputBody(o: seq<Member>): (r: Result<OutputEventBody>)
    ensures Get(o, "output") == None ==> r.Err?
    ensures r.Ok? ==> Get(o, "output") == Some(JString(r.value.output))
    ensures r.Ok? && Get(o, "category") == None ==> r.value.category == Console
    ensures r.Ok? && r.value.data.Some? ==> Get(o, "data") == Some(r.value.data.value) && r.value.data.value != JNull
  {
    var category :- Defaulted(o, "category", DecodeOutputCategory, DefaultOutputCategory);
    var output :- Required(o, "output", DecodeString);
    var group :- Optional(o, "group", DecodeOutputGroup);
    var variablesReference :- Optional(o, "variablesReference", DecodeI32);
    var source :- Optional(o, "source", DecodeObject);
    var line :- Optional(o, "line", DecodeI32);
    var column :- Optional(o, "column", DecodeI32);
    var data := OptionalValue(o, "data");
    Ok(OutputEventBody(category, output, group, variablesReference, source, line, column, data))
  }

  function DecodeProcessBody(o: seq<Member>): (r: Result<ProcessEventBody>)
    ensures Get(o, "name") == None ==> r == Err(MissingField("name"))
  {
    var name :- Required(o, "name", DecodeString);
    var systemProcessId :- Optional(o, "systemProcessId", DecodeI32);
    var isLocalProcess :- Optional(o, "isLocalProcess", DecodeBool);
    var startMethod :- Optional(o, "startMethod", DecodeProcessStartMethod);
    var pointerSize :- Optional(o, "pointerSize", DecodeI32);
    Ok(ProcessEventBody(name, systemProcessId, isLocalProcess, startMethod, pointerSize))
  }

  function DecodeProgressEndBody(o: seq<Member>): (r: Result<ProgressEndEventBody>)
    ensures Get(o, "progressId") == None ==> r == Err(MissingField("progressId"))
    ensures r.Ok? ==> Get(o, "progressId") == Some(JString(r.value.progressId))
    ensures r.Ok? ==> (r.value.message == None <==> Get(o, "message") in {None, Some(JNull)})
    ensures r.Ok? && r.value.message.Some? ==> Get(o, "message") == Some(JString(r.value.message.value))
  {
    var progressId :- Required(o, "progressId", DecodeString);
    var message :- Optional(o, "message", DecodeString);
    Ok(ProgressEndEventBody(progressId, message))
  }

  /** A percentage outside 0..255 does not decode; 101..255 do, although
      the protocol documents 0..100. */
  function DecodeProgressStartBody(o: seq<Member>): (r: Result<ProgressStartEventBody>)
    ensures Get(o, "progressId") == None ==> r == Err(MissingField("progressId"))
    ensures Get(o, "title") == None ==> r.Err?
    ensures r.Ok? && Get(o, "cancellable") == None ==> !r.value.cancellable
    ensures (Get(o, "percentage").Some? && Get(o, "percentage").value.JInt?
             && !(0 <= Get(o, "percentage").value.n < 0x100)) ==> r.Err?
  {
    var progressId :- Required(o, "progressId", DecodeString);
    var title :- Required(o, "title", DecodeString);
    var requestId :- Optional(o, "requestId", DecodeI32);
    var cancellable :- Defaulted(o, "cancellable", DecodeBool, false);
    var message :- Optional(o, "message", DecodeString);
    var percentage :- Optional(o, "percentage", DecodeU8);
    Ok(ProgressStartEventBody(progressId, title, requestId, cancellable, message, percentage))
  }

  function DecodeProgressUpdateBody(o: seq<Member>): (r: Result<ProgressUpdateEventBody>)
    ensures Get(o, "progressId") == None ==> r == Err(MissingField("progressId"))
    ensures r.Ok? ==> Get(o, "progressId") == Some(JString(r.value.progressId))
    ensures r.Ok? ==> (r.value.message == None <==> Get(o, "message") in {None, Some(JNull)})
    ensures r.Ok? && r.value.message.Some? ==> Get(o, "message") == Some(JString(r.value.message.value))
    ensures r.Ok? ==> (r.value.percentage == None <==> Get(o, "percentage") in {None, Some(JNull)})
    ensures r.Ok? && r.value.percentage.Some? ==> Get(o, "percentage") == Some(JInt(r.value.percentage.value))
    ensures (Get(o, "percentage").Some? && Get(o, "percentage").value.JInt?
             && !(0 <= Get(o, "percentage").value.n < 0x100)) ==> r.Err?
  {
    var progressId :- Required(o, "progressId", DecodeString);
    var message :- Optional(o, "message", DecodeString);
    var percentage :- Optional(o, "percentage", DecodeU8);
    Ok(ProgressUpdateEventBody(progressId, message, percentage))
  }

  function DecodeStoppedBody(o: seq<Member>): (r: Result<StoppedEventBody>)
    ensures Get(o, "reason") == None ==> r == Err(MissingField("reason"))
    ensures r.Ok? && Get(o, "preserveFocusHint") == None ==> !r.value.preserveFocusHint
    ensures r.Ok? && Get(o, "allThreadsStopped") == None ==> !r.value.allThreadsStopped
    ensures r.Ok? && Get(o, "hitBreakpointIds") == None ==> r.value.hitBreakpointIds == []
  {
    var reason :- Required(o, "reason", DecodeStoppedEventReason);
    var description :- Optional(o, "description", DecodeString);
    var threadId :- Optional(o, "threadId", DecodeI32);
    var preserveFocusHint :- Defaulted(o, "preserveFocusHint", DecodeBool, false);
    var text :- Optional(o, "text", DecodeString);
    var allThreadsStopped :- Defaulted(o, "allThreadsStopped", DecodeBool, false);
    var hitBreakpointIds :- Defaulted(o, "hitBreakpointIds", DecodeI32s, []);
    Ok(StoppedEventBody(reason, description, threadId, preserveFocusHint, text, allThreadsStopped, hitBreakpointIds))
  }

  function DecodeTerminatedBody(o: seq<Member>): (r: Result<TerminatedEventBody>)
    ensures r.Ok?
    ensures r.value.restart.Some? <==> Get(o, "restart").Some? && Get(o, "restart") != Some(JNull)
  {
    Ok(TerminatedEventBody(OptionalValue(o, "restart")))
  }

  function DecodeThreadBody(o: seq<Member>): (r: Result<ThreadEventBody>)
    ensures Get(o, "reason") == None ==> r == Err(MissingField("reason"))
    ensures Get(o, "threadId") == None ==> r.Err?
    ensures r.Ok? ==> Get(o, "reason") == Some(JString(ThreadEventReasonName(r.value.reason)))
    ensures r.Ok? ==> Get(o, "threadId") == Some(JInt(r.value.threadId))
  {
    var reason :- Required(o, "reason", DecodeThreadEventReason);
    var threadId :- Required(o, "threadId", DecodeI32);
    Ok(ThreadEventBody(reason, threadId))
  }

  // ----- each payload record reads back what its encoder wrote -----
  // Each record has a <Record>KeysDistinct lemma for its wire names, and the
  // larger records split reading their fields into Read<Record>Fields0/1
  // halves. They are steps of the round trips, kept apart only so that each
  // proof obligation stays within the solver's budget.

  lemma BreakpointKeysDistinct()
    ensures DistinctNames(BreakpointKeys)
  {
  }

  lemma BreakpointBodyRoundTrip(b: BreakpointEventBody)
    ensures DecodeBreakpointBody(EncodeBreakpointBody(b).fields) == Ok(b)
  {
    BreakpointKeysDistinct();
    GetMembers(BreakpointKeys, BreakpointValues(b), 0);
    GetMembers(BreakpointKeys, BreakpointValues(b), 1);
    var o := EncodeBreakpointBody(b).fields;
    RequiredRoundTrip(o, "reason", b.reason, EncodeBreakpointEventReason, DecodeBreakpointEventReason);
    RequiredRoundTrip(o, "breakpoint", b.breakpoint, EncodeOpaque, DecodeObject);
  }

  lemma CapabilitiesKeysDistinct()
    ensures DistinctNames(CapabilitiesKeys)
  {
  }

  /** Any object holding an encoding of the capabilities under
      `capabilities` decodes to them. */
  lemma DecodeHeldCapabilities(o: seq<Member>, b: CapabilitiesEventBody)
    requires Get(o, "capabilities") == Some(EncodeCapabilities(b.capabilities))
    ensures DecodeCapabilitiesBody(o) == Ok(b)
  {
    CapabilitiesRoundTrip(b.capabilities);
  }

  lemma CapabilitiesBodyRoundTrip(b: CapabilitiesEventBody)
    ensures DecodeCapabilitiesBody(EncodeCapabilitiesBody(b).fields) == Ok(b)
  {
    CapabilitiesKeysDistinct();
    GetMembers(CapabilitiesKeys, CapabilitiesValues(b), 0);
    DecodeHeldCapabilities(EncodeCapabilitiesBody(b).fields, b);
  }

  lemma ContinuedKeysDistinct()
    ensures DistinctNames(ContinuedKeys)
  {
  }

  lemma ContinuedBodyRoundTrip(b: ContinuedEventBody)
    ensures DecodeContinuedBody(EncodeContinuedBody(b).fields) == Ok(b)
  {
    ContinuedKeysDistinct();
    GetMembers(ContinuedKeys, ContinuedValues(b), 0);
    GetMembers(ContinuedKeys, ContinuedValues(b), 1);
    var o := EncodeContinuedBody(b).fields;
    RequiredRoundTrip(o, "threadId", b.threadId, EncodeI32, DecodeI32);
    DefaultedRoundTrip(o, "allThreadsContinued", b.allThreadsContinued, false, JBoolean, DecodeBool);
  }

  lemma ExitedKeysDistinct()
    ensures DistinctNames(ExitedKeys)
  {
  }

  lemma ExitedBodyRoundTrip(b: ExitedEventBody)
    ensures DecodeExitedBody(EncodeExitedBody(b).fields) == Ok(b)
  {
    ExitedKeysDistinct();
    GetMembers(ExitedKeys, ExitedValues(b), 0);
    var o := EncodeExitedBody(b).fields;
    RequiredRoundTrip(o, "exitCode", b.exitCode, EncodeI32, DecodeI32);
  }

  lemma InvalidatedKeysDistinct()
    ensures DistinctNames(InvalidatedKeys)
  {
  }

  lemma InvalidatedBodyRoundTrip(b: InvalidatedEventBody)
    ensures DecodeInvalidatedBody(EncodeInvalidatedBody(b).fields) == Ok(b)
  {
    InvalidatedKeysDistinct();
    GetMembers(InvalidatedKeys, InvalidatedValues(b), 0);
    GetMembers(InvalidatedKeys, InvalidatedValues(b), 1);
    GetMembers(InvalidatedKeys, InvalidatedValues(b), 2);
    var o := EncodeInvalidatedBody(b).fields;
    DefaultedItemsRoundTrip(o, "areas", b.areas, JStr, DecodeString, DecodeStrings);
    OptionalRoundTrip(o, "threadId", b.threadId, EncodeI32, DecodeI32);
    OptionalRoundTrip(o, "stackFrameId", b.stackFrameId, EncodeI32, DecodeI32);
  }

  lemma LoadedSourceKeysDistinct()
    ensures DistinctNames(LoadedSourceKeys)
  {
  }

  lemma LoadedSourceBodyRoundTrip(b: LoadedSourceEventBody)
    ensures DecodeLoadedSourceBody(EncodeLoadedSourceBody(b).fields) == Ok(b)
  {
    LoadedSourceKeysDistinct();
    GetMembers(LoadedSourceKeys, LoadedSourceValues(b), 0);
    GetMembers(LoadedSourceKeys, LoadedSourceValues(b), 1);
    var o := EncodeLoadedSourceBody(b).fields;
    RequiredRoundTrip(o, "reason", b.reason, EncodeLoadedSourceEventReason, DecodeLoadedSourceEventReason);
    RequiredRoundTrip(o, "source", b.source, EncodeOpaque, DecodeObject);
  }

  lemma ModuleKeysDistinct()
    ensures DistinctNames(ModuleKeys)
  {
  }

  lemma ModuleBodyRoundTrip(b: ModuleEventBody)
    ensures DecodeModuleBody(EncodeModuleBody(b).fields) == Ok(b)
  {
    ModuleKeysDistinct();
    GetMembers(ModuleKeys, ModuleValues(b), 0);
    GetMembers(ModuleKeys, ModuleValues(b), 1);
    var o := EncodeModuleBody(b).fields;
    RequiredRoundTrip(o, "reason", b.reason, EncodeModuleEventReason, DecodeModuleEventReason);
    RequiredRoundTrip(o, "module", b.mod, EncodeOpaque, DecodeObject);
  }

  lemma OutputKeysDistinct()
    ensures DistinctNames(OutputKeys)
  {
  }

  /** What object `o` holds under each wire name when it encodes `b`. */
  ghost predicate HoldsOutput(o: seq<Member>, b: OutputEventBody) {
    && Get(o, "category") == SkipDefault(b.category, DefaultOutputCategory, EncodeOutputCategory)
    && Get(o, "output") == Some(JStr(b.output))
    && Get(o, "group") == SkipNone(b.group, EncodeOutputGroup)
    && Get(o, "variablesReference") == SkipNone(b.variablesReference, EncodeI32)
    && Get(o, "source") == SkipNone(b.source, EncodeOpaque)
    && Get(o, "line") == SkipNone(b.line, EncodeI32)
    && Get(o, "column") == SkipNone(b.column, EncodeI32)
    && Get(o, "data") == b.data
  }

  lemma OutputMembersShape(b: OutputEventBody)
    ensures HoldsOutput(EncodeOutputBody(b).fields, b)
  {
    OutputKeysDistinct();
    var values := OutputValues(b);
    GetMembers(OutputKeys, values, 0);
    GetMembers(OutputKeys, values, 1);
    GetMembers(OutputKeys, values, 2);
    GetMembers(OutputKeys, values, 3);
    GetMembers(OutputKeys, values, 4);
    GetMembers(OutputKeys, values, 5);
    GetMembers(OutputKeys, values, 6);
    GetMembers(OutputKeys, values, 7);
  }

  lemma ReadOutputFields0(o: seq<Member>, b: OutputEventBody)
    requires HoldsOutput(o, b)
    ensures Defaulted(o, "category", DecodeOutputCategory, DefaultOutputCategory) == Ok(b.category)
    ensures Required(o, "output", DecodeString) == Ok(b.output)
    ensures Optional(o, "group", DecodeOutputGroup) == Ok(b.group)
    ensures Optional(o, "variablesReference", DecodeI32) == Ok(b.variablesReference)
  {
    DefaultedRoundTrip(o, "category", b.category, DefaultOutputCategory, EncodeOutputCategory, DecodeOutputCategory);
    RequiredRoundTrip(o, "output", b.output, JStr, DecodeString);
    OptionalRoundTrip(o, "group", b.group, EncodeOutputGroup, DecodeOutputGroup);
    OptionalRoundTrip(o, "variablesReference", b.variablesReference, EncodeI32, DecodeI32);
  }

  lemma ReadOutputFields1(o: seq<Member>, b: OutputEventBody)
    requires HoldsOutput(o, b)
    requires b.data != Some(JNull)
    ensures Optional(o, "source", DecodeObject) == Ok(b.source)
    ensures Optional(o, "line", DecodeI32) == Ok(b.line)
    ensures Optional(o, "column", DecodeI32) == Ok(b.column)
    ensures OptionalValue(o, "data") == b.data
  {
    OptionalRoundTrip(o, "source", b.source, EncodeOpaque, DecodeObject);
    OptionalRoundTrip(o, "line", b.line, EncodeI32, DecodeI32);
    OptionalRoundTrip(o, "column", b.column, EncodeI32, DecodeI32);
  }

  lemma DecodeOutputFields(o: seq<Member>, b: OutputEventBody)
    requires Defaulted(o, "category", DecodeOutputCategory, DefaultOutputCategory) == Ok(b.category)
    requires Required(o, "output", DecodeString) == Ok(b.output)
    requires Optional(o, "group", DecodeOutputGroup) == Ok(b.group)
    requires Optional(o, "variablesReference", DecodeI32) == Ok(b.variablesReference)
    requires Optional(o, "source", DecodeObject) == Ok(b.source)
    requires Optional(o, "line", DecodeI32) == Ok(b.line)
    requires Optional(o, "column", DecodeI32) == Ok(b.column)
    requires OptionalValue(o, "data") == b.data
    ensures DecodeOutputBody(o) == Ok(b)
  {
  }

  /** Any object holding the encodings of `b` under the wire names, in any
      order and beside other members, decodes to `b`. */

  lemma DecodeHeldOutput(o: seq<Member>, b: OutputEventBody)
    requires HoldsOutput(o, b)
    requires b.data != Some(JNull)
    ensures DecodeOutputBody(o) == Ok(b)
  {
    ReadOutputFields0(o, b);
    ReadOutputFields1(o, b);
    DecodeOutputFields(o, b);
  }

  lemma OutputBodyRoundTrip(b: OutputEventBody)
    requires b.data != Some(JNull)
    ensures DecodeOutputBody(EncodeOutputBody(b).fields) == Ok(b)
  {
    OutputMembersShape(b);
    DecodeHeldOutput(EncodeOutputBody(b).fields, b);
  }

  lemma ProcessKeysDistinct()
    ensures DistinctNames(ProcessKeys)
  {
  }

  /** What object `o` holds under each wire name when it encodes `b`. */
  ghost predicate HoldsProcess(o: seq<Member>, b: ProcessEventBody) {
    && Get(o, "name") == Some(JStr(b.name))
    && Get(o, "systemProcessId") == SkipNone(b.systemProcessId, EncodeI32)
    && Get(o, "isLocalProcess") == SkipNone(b.isLocalProcess, JBoolean)
    && Get(o, "startMethod") == SkipNone(b.startMethod, EncodeProcessStartMethod)
    && Get(o, "pointerSize") == SkipNone(b.pointerSize, EncodeI32)
  }

  lemma ProcessMembersShape(b: ProcessEventBody)
    ensures HoldsProcess(EncodeProcessBody(b).fields, b)
  {
    ProcessKeysDistinct();
    var values := ProcessValues(b);
    GetMembers(ProcessKeys, values, 0);
    GetMembers(ProcessKeys, values, 1);
    GetMembers(ProcessKeys, values, 2);
    GetMembers(ProcessKeys, values, 3);
    GetMembers(ProcessKeys, values, 4);
  }

  lemma ReadProcessFields0(o: seq<Member>, b: ProcessEventBody)
    requires HoldsProcess(o, b)
    ensures Required(o, "name", DecodeString) == Ok(b.name)
    ensures Optional(o, "systemProcessId", DecodeI32) == Ok(b.systemProcessId)
    ensures Optional(o, "isLocalProcess", DecodeBool) == Ok(b.isLocalProcess)
    ensures Optional(o, "startMethod", DecodeProcessStartMethod) == Ok(b.startMethod)
  {
    RequiredRoundTrip(o, "name", b.name, JStr, DecodeString);
    OptionalRoundTrip(o, "systemProcessId", b.systemProcessId, EncodeI32, DecodeI32);
    OptionalRoundTrip(o, "isLocalProcess", b.isLocalProcess, JBoolean, DecodeBool);
    OptionalRoundTrip(o, "startMethod", b.startMethod, EncodeProcessStartMethod, DecodeProcessStartMethod);
  }

  lemma ReadProcessFields1(o: seq<Member>, b: ProcessEventBody)
    requires HoldsProcess(o, b)
    ensures Optional(o, "pointerSize", DecodeI32) == Ok(b.pointerSize)
  {
    OptionalRoundTrip(o, "pointerSize", b.pointerSize, EncodeI32, DecodeI32);
  }

  lemma DecodeProcessFields(o: seq<Member>, b: ProcessEventBody)
    requires Required(o, "name", DecodeString) == Ok(b.name)
    requires Optional(o, "systemProcessId", DecodeI32) == Ok(b.systemProcessId)
    requires Optional(o, "isLocalProcess", DecodeBool) == Ok(b.isLocalProcess)
    requires Optional(o, "startMethod", DecodeProcessStartMethod) == Ok(b.startMethod)
    requires Optional(o, "pointerSize", DecodeI32) == Ok(b.pointerSize)
    ensures DecodeProcessBody(o) == Ok(b)
  {
  }


  lemma DecodeHeldProcess(o: seq<Member>, b: ProcessEventBody)
    requires HoldsProcess(o, b)
    ensures DecodeProcessBody(o) == Ok(b)
  {
    ReadProcessFields0(o, b);
    ReadProcessFields1(o, b);
    DecodeProcessFields(o, b);
  }

  lemma ProcessBodyRoundTrip(b: ProcessEventBody)
    ensures DecodeProcessBody(EncodeProcessBody(b).fields) == Ok(b)
  {
    ProcessMembersShape(b);
    DecodeHeldProcess(EncodeProcessBody(b).fields, b);
  }

  lemma ProgressEndKeysDistinct()
    ensures DistinctNames(ProgressEndKeys)
  {
  }

  lemma ProgressEndBodyRoundTrip(b: ProgressEndEventBody)
    ensures DecodeProgressEndBody(EncodeProgressEndBody(b).fields) == Ok(b)
  {
    ProgressEndKeysDistinct();
    GetMembers(ProgressEndKeys, ProgressEndValues(b), 0);
    GetMembers(ProgressEndKeys, ProgressEndValues(b), 1);
    var o := EncodeProgressEndBody(b).fields;
    RequiredRoundTrip(o, "progressId", b.progressId, JStr, DecodeString);
    OptionalRoundTrip(o, "message", b.message, JStr, DecodeString);
  }

  lemma ProgressStartKeysDistinct()
    ensures DistinctNames(ProgressStartKeys)
  {
  }

  /** What object `o` holds under each wire name when it encodes `b`. */
  ghost predicate HoldsProgressStart(o: seq<Member>, b: ProgressStartEventBody) {
    && Get(o, "progressId") == Some(JStr(b.progressId))
    && Get(o, "title") == Some(JStr(b.title))
    && Get(o, "requestId") == SkipNone(b.requestId, EncodeI32)
    && Get(o, "cancellable") == SkipDefault(b.cancellable, false, JBoolean)
    && Get(o, "message") == SkipNone(b.message, JStr)
    && Get(o, "percentage") == SkipNone(b.percentage, EncodeU8)
  }

  lemma ProgressStartMembersShape(b: ProgressStartEventBody)
    ensures HoldsProgressStart(EncodeProgressStartBody(b).fields, b)
  {
    ProgressStartKeysDistinct();
    var values := ProgressStartValues(b);
    GetMembers(ProgressStartKeys, values, 0);
    GetMembers(ProgressStartKeys, values, 1);
    GetMembers(ProgressStartKeys, values, 2);
    GetMembers(ProgressStartKeys, values, 3);
    GetMembers(ProgressStartKeys, values, 4);
    GetMembers(ProgressStartKeys, values, 5);
  }

  lemma ReadProgressStartFields0(o: seq<Member>, b: ProgressStartEventBody)
    requires HoldsProgressStart(o, b)
    ensures Required(o, "progressId", DecodeString) == Ok(b.progressId)
    ensures Required(o, "title", DecodeString) == Ok(b.title)
    ensures Optional(o, "requestId", DecodeI32) == Ok(b.requestId)
    ensures Defaulted(o, "cancellable", DecodeBool, false) == Ok(b.cancellable)
  {
    RequiredRoundTrip(o, "progressId", b.progressId, JStr, DecodeString);
    RequiredRoundTrip(o, "title", b.title, JStr, DecodeString);
    OptionalRoundTrip(o, "requestId", b.requestId, EncodeI32, DecodeI32);
    DefaultedRoundTrip(o, "cancellable", b.cancellable, false, JBoolean, DecodeBool);
  }

  lemma ReadProgressStartFields1(o: seq<Member>, b: ProgressStartEventBody)
    requires HoldsProgressStart(o, b)
    ensures Optional(o, "message", DecodeString) == Ok(b.message)
    ensures Optional(o, "percentage", DecodeU8) == Ok(b.percentage)
  {
    OptionalRoundTrip(o, "message", b.message, JStr, DecodeString);
    OptionalRoundTrip(o, "percentage", b.percentage, EncodeU8, DecodeU8);
  }

  lemma DecodeProgressStartFields(o: seq<Member>, b: ProgressStartEventBody)
    requires Required(o, "progressId", DecodeString) == Ok(b.progressId)
    requires Required(o, "title", DecodeString) == Ok(b.title)
    requires Optional(o, "requestId", DecodeI32) == Ok(b.requestId)
    requires Defaulted(o, "cancellable", DecodeBool, false) == Ok(b.cancellable)
    requires Optional(o, "message", DecodeString) == Ok(b.message)
    requires Optional(o, "percentage", DecodeU8) == Ok(b.percentage)
    ensures DecodeProgressStartBody(o) == Ok(b)
  {
  }


  lemma DecodeHeldProgressStart(o: seq<Member>, b: ProgressStartEventBody)
    requires HoldsProgressStart(o, b)
    ensures DecodeProgressStartBody(o) == Ok(b)
  {
    ReadProgressStartFields0(o, b);
    ReadProgressStartFields1(o, b);
    DecodeProgressStartFields(o, b);
  }

  lemma ProgressStartBodyRoundTrip(b: ProgressStartEventBody)
    ensures DecodeProgressStartBody(EncodeProgressStartBody(b).fields) == Ok(b)
  {
    ProgressStartMembersShape(b);
    DecodeHeldProgressStart(EncodeProgressStartBody(b).fields, b);
  }

  lemma ProgressUpdateKeysDistinct()
    ensures DistinctNames(ProgressUpdateKeys)
  {
  }

  lemma ProgressUpdateBodyRoundTrip(b: ProgressUpdateEventBody)
    ensures DecodeProgressUpdateBody(EncodeProgressUpdateBody(b).fields) == Ok(b)
  {
    ProgressUpdateKeysDistinct();
    GetMembers(ProgressUpdateKeys, ProgressUpdateValues(b), 0);
    GetMembers(ProgressUpdateKeys, ProgressUpdateValues(b), 1);
    GetMembers(ProgressUpdateKeys, ProgressUpdateValues(b), 2);
    var o := EncodeProgressUpdateBody(b).fields;
    RequiredRoundTrip(o, "progressId", b.progressId, JStr, DecodeString);
    OptionalRoundTrip(o, "message", b.message, JStr, DecodeString);
    OptionalRoundTrip(o, "percentage", b.percentage, EncodeU8, DecodeU8);
  }

  lemma StoppedKeysDistinct()
    ensures DistinctNames(StoppedKeys)
  {
  }

  /** What object `o` holds under each wire name when it encodes `b`. */
  ghost predicate HoldsStopped(o: seq<Member>, b: StoppedEventBody) {
    && Get(o, "reason") == Some(EncodeStoppedEventReason(b.reason))
    && Get(o, "description") == SkipNone(b.description, JStr)
    && Get(o, "threadId") == SkipNone(b.threadId, EncodeI32)
    && Get(o, "preserveFocusHint") == SkipDefault(b.preserveFocusHint, false, JBoolean)
    && Get(o, "text") == SkipNone(b.text, JStr)
    && Get(o, "allThreadsStopped") == SkipDefault(b.allThreadsStopped, false, JBoolean)
    && Get(o, "hitBreakpointIds") == SkipEmpty(b.hitBreakpointIds, EncodeI32)
  }

  lemma StoppedMembersShape(b: StoppedEventBody)
    ensures HoldsStopped(EncodeStoppedBody(b).fields, b)
  {
    StoppedKeysDistinct();
    var values := StoppedValues(b);
    GetMembers(StoppedKeys, values, 0);
    GetMembers(StoppedKeys, values, 1);
    GetMembers(StoppedKeys, values, 2);
    GetMembers(StoppedKeys, values, 3);
    GetMembers(StoppedKeys, values, 4);
    GetMembers(StoppedKeys, values, 5);
    GetMembers(StoppedKeys, values, 6);
  }

  lemma ReadStoppedFields0(o: seq<Member>, b: StoppedEventBody)
    requires HoldsStopped(o, b)
    ensures Required(o, "reason", DecodeStoppedEventReason) == Ok(b.reason)
    ensures Optional(o, "description", DecodeString) == Ok(b.description)
    ensures Optional(o, "threadId", DecodeI32) == Ok(b.threadId)
    ensures Defaulted(o, "preserveFocusHint", DecodeBool, false) == Ok(b.preserveFocusHint)
  {
    RequiredRoundTrip(o, "reason", b.reason, EncodeStoppedEventReason, DecodeStoppedEventReason);
    OptionalRoundTrip(o, "description", b.description, JStr, DecodeString);
    OptionalRoundTrip(o, "threadId", b.threadId, EncodeI32, DecodeI32);
    DefaultedRoundTrip(o, "preserveFocusHint", b.preserveFocusHint, false, JBoolean, DecodeBool);
  }

  lemma ReadStoppedFields1(o: seq<Member>, b: StoppedEventBody)
    requires HoldsStopped(o, b)
    ensures Optional(o, "text", DecodeString) == Ok(b.text)
    ensures Defaulted(o, "allThreadsStopped", DecodeBool, false) == Ok(b.allThreadsStopped)
    ensures Defaulted(o, "hitBreakpointIds", DecodeI32s, []) == Ok(b.hitBreakpointIds)
  {
    OptionalRoundTrip(o, "text", b.text, JStr, DecodeString);
    DefaultedRoundTrip(o, "allThreadsStopped", b.allThreadsStopped, false, JBoolean, DecodeBool);
    DefaultedItemsRoundTrip(o, "hitBreakpointIds", b.hitBreakpointIds, EncodeI32, DecodeI32, DecodeI32s);
  }

  lemma DecodeStoppedFields(o: seq<Member>, b: StoppedEventBody)
    requires Required(o, "reason", DecodeStoppedEventReason) == Ok(b.reason)
    requires Optional(o, "description", DecodeString) == Ok(b.description)
    requires Optional(o, "threadId", DecodeI32) == Ok(b.threadId)
    requires Defaulted(o, "preserveFocusHint", DecodeBool, false) == Ok(b.preserveFocusHint)
    requires Optional(o, "text", DecodeString) == Ok(b.text)
    requires Defaulted(o, "allThreadsStopped", DecodeBool, false) == Ok(b.allThreadsStopped)
    requires Defaulted(o, "hitBreakpointIds", DecodeI32s, []) == Ok(b.hitBreakpointIds)
    ensures DecodeStoppedBody(o) == Ok(b)
  {
  }

  /** Any object holding the encodings of `b` under the wire names, in any
      order and beside other members, decodes to `b`. */

  lemma DecodeHeldStopped(o: seq<Member>, b: StoppedEventBody)
    requires HoldsStopped(o, b)
    ensures DecodeStoppedBody(o) == Ok(b)
  {
    ReadStoppedFields0(o, b);
    ReadStoppedFields1(o, b);
    DecodeStoppedFields(o, b);
  }

  lemma StoppedBodyRoundTrip(b: StoppedEventBody)
    ensures DecodeStoppedBody(EncodeStoppedBody(b).fields) == Ok(b)
  {
    StoppedMembersShape(b);
    DecodeHeldStopped(EncodeStoppedBody(b).fields, b);
  }

  lemma TerminatedKeysDistinct()
    ensures DistinctNames(TerminatedKeys)
  {
  }

  lemma TerminatedBodyRoundTrip(b: TerminatedEventBody)
    requires b.restart != Some(JNull)
    ensures DecodeTerminatedBody(EncodeTerminatedBody(b).fields) == Ok(b)
  {
    TerminatedKeysDistinct();
    GetMembers(TerminatedKeys, TerminatedValues(b), 0);
  }

  lemma ThreadKeysDistinct()
    ensures DistinctNames(ThreadKeys)
  {
  }

  lemma ThreadBodyRoundTrip(b: ThreadEventBody)
    ensures DecodeThreadBody(EncodeThreadBody(b).fields) == Ok(b)
  {
    ThreadKeysDistinct();
    GetMembers(ThreadKeys, ThreadValues(b), 0);
    GetMembers(ThreadKeys, ThreadValues(b), 1);
    var o := EncodeThreadBody(b).fields;
    RequiredRoundTrip(o, "reason", b.reason, EncodeThreadEventReason, DecodeThreadEventReason);
    RequiredRoundTrip(o, "threadId", b.threadId, EncodeI32, DecodeI32);
  }

  // ----- which members each record leaves out -----

  /** `allThreadsContinued` is written only when it is true. */
  lemma ContinuedElision(b: ContinuedEventBody)
    ensures Get(EncodeContinuedBody(b).fields, "threadId") == Some(JInt(b.threadId))
    ensures Get(EncodeContinuedBody(b).fields, "allThreadsContinued") == None <==> !b.allThreadsContinued
  {
    ContinuedKeysDistinct();
    GetMembers(ContinuedKeys, ContinuedValues(b), 0);
    GetMembers(ContinuedKeys, ContinuedValues(b), 1);
  }

  /** `areas` is left out exactly when it is empty, and the two ids exactly
      when they are None. */
  lemma InvalidatedElision(b: InvalidatedEventBody)
    ensures Get(EncodeInvalidatedBody(b).fields, "areas") == None <==> b.areas == []
    ensures Get(EncodeInvalidatedBody(b).fields, "threadId") == None <==> b.threadId == None
    ensures Get(EncodeInvalidatedBody(b).fields, "stackFrameId") == None <==> b.stackFrameId == None
  {
    InvalidatedKeysDistinct();
    GetMembers(InvalidatedKeys, InvalidatedValues(b), 0);
    GetMembers(InvalidatedKeys, InvalidatedValues(b), 1);
    GetMembers(InvalidatedKeys, InvalidatedValues(b), 2);
  }

  /** `category` is left out exactly when it is `console`; `output` is always
      written; every optional member is left out exactly when it is None. */
  lemma OutputElision(b: OutputEventBody)
    ensures Get(EncodeOutputBody(b).fields, "category") == None <==> b.category == Console
    ensures Get(EncodeOutputBody(b).fields, "output") == Some(JString(b.output))
    ensures Get(EncodeOutputBody(b).fields, "group") == None <==> b.group == None
    ensures Get(EncodeOutputBody(b).fields, "variablesReference") == None <==> b.variablesReference == None
    ensures Get(EncodeOutputBody(b).fields, "source") == None <==> b.source == None
    ensures Get(EncodeOutputBody(b).fields, "line") == None <==> b.line == None
    ensures Get(EncodeOutputBody(b).fields, "column") == None <==> b.column == None
    ensures Get(EncodeOutputBody(b).fields, "data") == None <==> b.data == None
  {
    OutputMembersShape(b);
  }

  /** Every optional member of a `process` payload is left out exactly when
      it is None. */
  lemma ProcessElision(b: ProcessEventBody)
    ensures Get(EncodeProcessBody(b).fields, "name") == Some(JString(b.name))
    ensures Get(EncodeProcessBody(b).fields, "systemProcessId") == None <==> b.systemProcessId == None
    ensures Get(EncodeProcessBody(b).fields, "isLocalProcess") == None <==> b.isLocalProcess == None
    ensures Get(EncodeProcessBody(b).fields, "startMethod") == None <==> b.startMethod == None
    ensures Get(EncodeProcessBody(b).fields, "pointerSize") == None <==> b.pointerSize == None
  {
    ProcessMembersShape(b);
  }

  /** `cancellable` is written only when it is true. */
  lemma ProgressStartElision(b: ProgressStartEventBody)
    ensures Get(EncodeProgressStartBody(b).fields, "title") == Some(JString(b.title))
    ensures Get(EncodeProgressStartBody(b).fields, "cancellable") == None <==> !b.cancellable
    ensures Get(EncodeProgressStartBody(b).fields, "requestId") == None <==> b.requestId == None
    ensures Get(EncodeProgressStartBody(b).fields, "message") == None <==> b.message == None
    ensures Get(EncodeProgressStartBody(b).fields, "percentage") == None <==> b.percentage == None
  {
    ProgressStartMembersShape(b);
  }

  /** The two hints are written only when true, `hitBreakpointIds` only when
      not empty, and the optional members only when present. */
  lemma StoppedElision(b: StoppedEventBody)
    ensures Get(EncodeStoppedBody(b).fields, "reason") == Some(JString(StoppedEventReasonName(b.reason)))
    ensures Get(EncodeStoppedBody(b).fields, "preserveFocusHint") == None <==> !b.preserveFocusHint
    ensures Get(EncodeStoppedBody(b).fields, "allThreadsStopped") == None <==> !b.allThreadsStopped
    ensures Get(EncodeStoppedBody(b).fields, "hitBreakpointIds") == None <==> b.hitBreakpointIds == []
    ensures Get(EncodeStoppedBody(b).fields, "description") == None <==> b.description == None
    ensures Get(EncodeStoppedBody(b).fields, "threadId") == None <==> b.threadId == None
    ensures Get(EncodeStoppedBody(b).fields, "text") == None <==> b.text == None
  {
    StoppedMembersShape(b);
  }

  // ----- the event union -----

  datatype Event =
    | Breakpoint(breakpointBody: BreakpointEventBody)
    | Capabilities(capabilitiesBody: CapabilitiesEventBody)
    | Continued(continuedBody: ContinuedEventBody)
    | Exited(exitedBody: ExitedEventBody)
    | Initialized
    | Invalidated(invalidatedBody: InvalidatedEventBody)
    | LoadedSource(loadedSourceBody: LoadedSourceEventBody)
    | Module(moduleBody: ModuleEventBody)
    | Output(outputBody: OutputEventBody)
    | Process(processBody: ProcessEventBody)
    | ProgressEnd(progressEndBody: ProgressEndEventBody)
    | ProgressStart(progressStartBody: ProgressStartEventBody)
    | ProgressUpdate(progressUpdateBody: ProgressUpdateEventBody)
    | Stopped(stoppedBody: StoppedEventBody)
    | Terminated(terminatedBody: TerminatedEventBody)
    | Thread(threadBody: ThreadEventBody)

  /** The wire tags of the events, in declaration order: each variant's
      name in camelCase. */
  const EventCount := 16

  const EventTags: seq<string> := [
    "breakpoint", "capabilities", "continued", "exited", "initialized", "invalidated", "loadedSource", "module",
    "output", "process", "progressEnd", "progressStart", "progressUpdate", "stopped", "terminated", "thread"
  ]

  /** The position of an event's variant in declaration order. */
  function EventIndex(e: Event): (r: nat)
    ensures r < EventCount
  {
    match e
    case Breakpoint(_) => 0
    case Capabilities(_) => 1
    case Continued(_) => 2
    case Exited(_) => 3
    case Initialized => 4
    case Invalidated(_) => 5
    case LoadedSource(_) => 6
    case Module(_) => 7
    case Output(_) => 8
    case Process(_) => 9
    case ProgressEnd(_) => 10
    case ProgressStart(_) => 11
    case ProgressUpdate(_) => 12
    case Stopped(_) => 13
    case Terminated(_) => 14
    case Thread(_) => 15
  }

  function EventName(e: Event): string {
    EventTags[EventIndex(e)]
  }

  /** The payload written under `body`; `initialized` has none. */
  function EventBody(e: Event): Option<Json> {
    match e
    case Breakpoint(b) => Some(EncodeBreakpointBody(b))
    case Capabilities(b) => Some(EncodeCapabilitiesBody(b))
    case Continued(b) => Some(EncodeContinuedBody(b))
    case Exited(b) => Some(EncodeExitedBody(b))
    case Initialized => None
    case Invalidated(b) => Some(EncodeInvalidatedBody(b))
    case LoadedSource(b) => Some(EncodeLoadedSourceBody(b))
    case Module(b) => Some(EncodeModuleBody(b))
    case Output(b) => Some(EncodeOutputBody(b))
    case Process(b) => Some(EncodeProcessBody(b))
    case ProgressEnd(b) => Some(EncodeProgressEndBody(b))
    case ProgressStart(b) => Some(EncodeProgressStartBody(b))
    case ProgressUpdate(b) => Some(EncodeProgressUpdateBody(b))
    case Stopped(b) => Some(EncodeStoppedBody(b))
    case Terminated(b) => Some(EncodeTerminatedBody(b))
    case Thread(b) => Some(EncodeThreadBody(b))
  }

  /** The members of an event: `event` holds the tag, `body` the payload. */
  function EncodeEvent(e: Event): seq<Member> {
    Tagged("event", EventName(e), "body", EventBody(e))
  }

  /** The payload of a unit variant: absent or null. */
  function UnitContent(o: seq<Member>, key: string): Result<()> {
    match Get(o, key)
    case None => Ok(())
    case Some(JNull) => Ok(())
    case Some(_) => Err(InvalidType)
  }

  // The payload decoders of the variants that carry one, as decoders of events.

  function DecodeBreakpointEvent(o: seq<Member>): (r: Result<Event>)
    ensures r.Ok? ==> r.value.Breakpoint?
  {
    var b :- DecodeBreakpointBody(o);
    Ok(Event.Breakpoint(b))
  }

  function DecodeCapabilitiesEvent(o: seq<Member>): (r: Result<Event>)
    ensures r.Ok? ==> r.value.Capabilities?
  {
    var b :- DecodeCapabilitiesBody(o);
    Ok(Capabilities(b))
  }

  function DecodeContinuedEvent(o: seq<Member>): (r: Result<Event>)
    ensures r.Ok? ==> r.value.Continued?
  {
    var b :- DecodeContinuedBody(o);
    Ok(Continued(b))
  }

  function DecodeExitedEvent(o: seq<Member>): (r: Result<Event>)
    ensures r.Ok? ==> r.value.Exited?
  {
    var b :- DecodeExitedBody(o);
    Ok(Event.Exited(b))
  }

  function DecodeInvalidatedEvent(o: seq<Member>): (r: Result<Event>)
    ensures r.Ok? ==> r.value.Invalidated?
  {
    var b :- DecodeInvalidatedBody(o);
    Ok(Invalidated(b))
  }

  function DecodeLoadedSourceEvent(o: seq<Member>): (r: Result<Event>)
    ensures r.Ok? ==> r.value.LoadedSource?
  {
    var b :- DecodeLoadedSourceBody(o);
    Ok(LoadedSource(b))
  }

  function DecodeModuleEvent(o: seq<Member>): (r: Result<Event>)
    ensures r.Ok? ==> r.value.Module?
  {
    var b :- DecodeModuleBody(o);
    Ok(Module(b))
  }

  function DecodeOutputEvent(o: seq<Member>): (r: Result<Event>)
    ensures r.Ok? ==> r.value.Output?
  {
    var b :- DecodeOutputBody(o);
    Ok(Output(b))
  }

  function DecodeProcessEvent(o: seq<Member>): (r: Result<Event>)
    ensures r.Ok? ==> r.value.Process?
  {
    var b :- DecodeProcessBody(o);
    Ok(Process(b))
  }

  function DecodeProgressEndEvent(o: seq<Member>): (r: Result<Event>)
    ensures r.Ok? ==> r.value.ProgressEnd?
  {
    var b :- DecodeProgressEndBody(o);
    Ok(ProgressEnd(b))
  }

  function DecodeProgressStartEvent(o: seq<Member>): (r: Result<Event>)
    ensures r.Ok? ==> r.value.ProgressStart?
  {
    var b :- DecodeProgressStartBody(o);
    Ok(ProgressStart(b))
  }

  function DecodeProgressUpdateEvent(o: seq<Member>): (r: Result<Event>)
    ensures r.Ok? ==> r.value.ProgressUpdate?
  {
    var b :- DecodeProgressUpdateBody(o);
    Ok(ProgressUpdate(b))
  }

  function DecodeStoppedEvent(o: seq<Member>): (r: Result<Event>)
    ensures r.Ok? ==> r.value.Stopped?
  {
    var b :- DecodeStoppedBody(o);
    Ok(Stopped(b))
  }

  function DecodeTerminatedEvent(o: seq<Member>): (r: Result<Event>)
    ensures r.Ok? ==> r.value.Terminated?
  {
    Ok(Terminated(DecodeTerminatedBody(o).value))
  }

  function DecodeThreadEvent(o: seq<Member>): (r: Result<Event>)
    ensures r.Ok? ==> r.value.Thread?
  {
    var b :- DecodeThreadBody(o);
    Ok(Thread(b))
  }

  /** The payload of the event whose tag is `EventTags[i]`. */
  function DecodeEventBody(i: nat, o: seq<Member>): (r: Result<Event>)
    requires i < EventCount
    ensures r.Ok? ==> EventIndex(r.value) == i
    ensures i == 4 ==> (r == Ok(Initialized) <==> Get(o, "body") in {None, Some(JNull)})
    ensures i != 4 && Get(o, "body") == None ==> r == Err(MissingField("body"))
  {
    if i < 8 then DecodeEarlyEventBody(i, o) else DecodeLateEventBody(i, o)
  }

  /** The first eight variants, `breakpoint` to `module`. */
  function DecodeEarlyEventBody(i: nat, o: seq<Member>): (r: Result<Event>)
    requires i < 8
    ensures r.Ok? ==> EventIndex(r.value) == i
    ensures i == 4 ==> (r == Ok(Initialized) <==> Get(o, "body") in {None, Some(JNull)})
    ensures i != 4 && Get(o, "body") == None ==> r == Err(MissingField("body"))
  {
    match i
    case 0 => Content(o, "body", DecodeBreakpointEvent)
    case 1 => Content(o, "body", DecodeCapabilitiesEvent)
    case 2 => Content(o, "body", DecodeContinuedEvent)
    case 3 => Content(o, "body", DecodeExitedEvent)
    case 4 => var _ :- UnitContent(o, "body"); Ok(Initialized)
    case 5 => Content(o, "body", DecodeInvalidatedEvent)
    case 6 => Content(o, "body", DecodeLoadedSourceEvent)
    case _ => Content(o, "body", DecodeModuleEvent)
  }

  /** The last eight variants, `output` to `thread`. */
  function DecodeLateEventBody(i: nat, o: seq<Member>): (r: Result<Event>)
    requires 8 <= i < EventCount
    ensures r.Ok? ==> EventIndex(r.value) == i
    ensures Get(o, "body") == None ==> r == Err(MissingField("body"))
  {
    match i
    case 8 => Content(o, "body", DecodeOutputEvent)
    case 9 => Content(o, "body", DecodeProcessEvent)
    case 10 => Content(o, "body", DecodeProgressEndEvent)
    case 11 => Content(o, "body", DecodeProgressStartEvent)
    case 12 => Content(o, "body", DecodeProgressUpdateEvent)
    case 13 => Content(o, "body", DecodeStoppedEvent)
    case 14 => Content(o, "body", DecodeTerminatedEvent)
    case _ => Content(o, "body", DecodeThreadEvent)
  }

  /** The tag of an event object, when its `event` member is a string. */
  function EventTag(o: seq<Member>): Option<string> {
    match Get(o, "event")
    case Some(JString(tag)) => Some(tag)
    case _ => None
  }

  /** A derived decoder of an adjacently tagged enum: the tag is required and
      must name a variant (position 4 is `initialized`, the one without a
      payload); the payload is then read under `body`. */
  function DecodeEvent(o: seq<Member>): (r: Result<Event>)
    ensures Get(o, "event") == None ==> r == Err(MissingField("event"))
    ensures r.Ok? ==> EventTag(o).Some? && Lookup(EventTags, EventTag(o).value) == Some(EventIndex(r.value))
    ensures EventTag(o).Some? && Lookup(EventTags, EventTag(o).value) == None
      ==> r == Err(UnknownVariant(EventTag(o).value))
    ensures EventTag(o).Some? && Lookup(EventTags, EventTag(o).value) == Some(4)
      ==> (r == Ok(Initialized) <==> Get(o, "body") in {None, Some(JNull)})
    ensures (EventTag(o).Some? && Lookup(EventTags, EventTag(o).value).Some? && Lookup(EventTags, EventTag(o).value) != Some(4)
             && Get(o, "body") == None) ==> r == Err(MissingField("body"))
  {
    var tag :- Required(o, "event", DecodeString);
    match Lookup(EventTags, tag)
    case None => Err(UnknownVariant(tag))
    case Some(i) => DecodeEventBody(i, o)
  }

  // ----- properties of the event union -----

  lemma EventTagsDistinct()
    ensures DistinctNames(EventTags)
  {
    forall i, j | 0 <= i < j < |EventTags| ensures EventTags[i] != EventTags[j] {
      if i < 4 { } else if i < 8 { } else if i < 12 { } else { }
    }
  }

  /** Every event's tag is recognised as that event's variant. */
  lemma EventNameRecognised(e: Event)
    ensures Lookup(EventTags, EventName(e)) == Some(EventIndex(e))
  {
    EventTagsDistinct();
    LookupDistinct(EventTags, EventIndex(e));
  }

  /** The events the encoding can carry faithfully: an `Option<Value>` that
      holds null is written as null and so reads back as None. */
  ghost predicate WellFormed(e: Event) {
    match e
    case Output(b) => b.data != Some(JNull)
    case Terminated(b) => b.restart != Some(JNull)
    case _ => true
  }

  // Each payload-carrying event, read from an object holding its payload.

  lemma DecodeHeldBreakpointEvent(o: seq<Member>, b: BreakpointEventBody)
    requires Get(o, "body") == Some(EncodeBreakpointBody(b))
    ensures DecodeEarlyEventBody(0, o) == Ok(Event.Breakpoint(b))
  {
    BreakpointBodyRoundTrip(b);
    ContentRoundTrip(o, "body", EncodeBreakpointBody(b).fields, Event.Breakpoint(b), DecodeBreakpointEvent);
  }

  lemma DecodeHeldCapabilitiesEvent(o: seq<Member>, b: CapabilitiesEventBody)
    requires Get(o, "body") == Some(EncodeCapabilitiesBody(b))
    ensures DecodeEarlyEventBody(1, o) == Ok(Capabilities(b))
  {
    CapabilitiesBodyRoundTrip(b);
    ContentRoundTrip(o, "body", EncodeCapabilitiesBody(b).fields, Capabilities(b), DecodeCapabilitiesEvent);
  }

  lemma DecodeHeldContinuedEvent(o: seq<Member>, b: ContinuedEventBody)
    requires Get(o, "body") == Some(EncodeContinuedBody(b))
    ensures DecodeEarlyEventBody(2, o) == Ok(Continued(b))
  {
    ContinuedBodyRoundTrip(b);
    ContentRoundTrip(o, "body", EncodeContinuedBody(b).fields, Continued(b), DecodeContinuedEvent);
  }

  lemma DecodeHeldExitedEvent(o: seq<Member>, b: ExitedEventBody)
    requires Get(o, "body") == Some(EncodeExitedBody(b))
    ensures DecodeEarlyEventBody(3, o) == Ok(Event.Exited(b))
  {
    ExitedBodyRoundTrip(b);
    ContentRoundTrip(o, "body", EncodeExitedBody(b).fields, Event.Exited(b), DecodeExitedEvent);
  }

  lemma DecodeHeldInvalidatedEvent(o: seq<Member>, b: InvalidatedEventBody)
    requires Get(o, "body") == Some(EncodeInvalidatedBody(b))
    ensures DecodeEarlyEventBody(5, o) == Ok(Invalidated(b))
  {
    InvalidatedBodyRoundTrip(b);
    ContentRoundTrip(o, "body", EncodeInvalidatedBody(b).fields, Invalidated(b), DecodeInvalidatedEvent);
  }

  lemma DecodeHeldLoadedSourceEvent(o: seq<Member>, b: LoadedSourceEventBody)
    requires Get(o, "body") == Some(EncodeLoadedSourceBody(b))
    ensures DecodeEarlyEventBody(6, o) == Ok(LoadedSource(b))
  {
    LoadedSourceBodyRoundTrip(b);
    ContentRoundTrip(o, "body", EncodeLoadedSourceBody(b).fields, LoadedSource(b), DecodeLoadedSourceEvent);
  }

  lemma DecodeHeldModuleEvent(o: seq<Member>, b: ModuleEventBody)
    requires Get(o, "body") == Some(EncodeModuleBody(b))
    ensures DecodeEarlyEventBody(7, o) == Ok(Module(b))
  {
    ModuleBodyRoundTrip(b);
    ContentRoundTrip(o, "body", EncodeModuleBody(b).fields, Module(b), DecodeModuleEvent);
  }

  lemma DecodeHeldOutputEvent(o: seq<Member>, b: OutputEventBody)
    requires Get(o, "body") == Some(EncodeOutputBody(b))
    requires b.data != Some(JNull)
    ensures DecodeLateEventBody(8, o) == Ok(Output(b))
  {
    OutputBodyRoundTrip(b);
    ContentRoundTrip(o, "body", EncodeOutputBody(b).fields, Output(b), DecodeOutputEvent);
  }

  lemma DecodeHeldProcessEvent(o: seq<Member>, b: ProcessEventBody)
    requires Get(o, "body") == Some(EncodeProcessBody(b))
    ensures DecodeLateEventBody(9, o) == Ok(Process(b))
  {
    ProcessBodyRoundTrip(b);
    ContentRoundTrip(o, "body", EncodeProcessBody(b).fields, Process(b), DecodeProcessEvent);
  }

  lemma DecodeHeldProgressEndEvent(o: seq<Member>, b: ProgressEndEventBody)
    requires Get(o, "body") == Some(EncodeProgressEndBody(b))
    ensures DecodeLateEventBody(10, o) == Ok(ProgressEnd(b))
  {
    ProgressEndBodyRoundTrip(b);
    ContentRoundTrip(o, "body", EncodeProgressEndBody(b).fields, ProgressEnd(b), DecodeProgressEndEvent);
  }

  lemma DecodeHeldProgressStartEvent(o: seq<Member>, b: ProgressStartEventBody)
    requires Get(o, "body") == Some(EncodeProgressStartBody(b))
    ensures DecodeLateEventBody(11, o) == Ok(ProgressStart(b))
  {
    ProgressStartBodyRoundTrip(b);
    ContentRoundTrip(o, "body", EncodeProgressStartBody(b).fields, ProgressStart(b), DecodeProgressStartEvent);
  }

  lemma DecodeHeldProgressUpdateEvent(o: seq<Member>, b: ProgressUpdateEventBody)
    requires Get(o, "body") == Some(EncodeProgressUpdateBody(b))
    ensures DecodeLateEventBody(12, o) == Ok(ProgressUpdate(b))
  {
    ProgressUpdateBodyRoundTrip(b);
    ContentRoundTrip(o, "body", EncodeProgressUpdateBody(b).fields, ProgressUpdate(b), DecodeProgressUpdateEvent);
  }

  lemma DecodeHeldStoppedEvent(o: seq<Member>, b: StoppedEventBody)
    requires Get(o, "body") == Some(EncodeStoppedBody(b))
    ensures DecodeLateEventBody(13, o) == Ok(Stopped(b))
  {
    StoppedBodyRoundTrip(b);
    ContentRoundTrip(o, "body", EncodeStoppedBody(b).fields, Stopped(b), DecodeStoppedEvent);
  }

  lemma DecodeHeldTerminatedEvent(o: seq<Member>, b: TerminatedEventBody)
    requires Get(o, "body") == Some(EncodeTerminatedBody(b))
    requires b.restart != Some(JNull)
    ensures DecodeLateEventBody(14, o) == Ok(Terminated(b))
  {
    TerminatedBodyRoundTrip(b);
    ContentRoundTrip(o, "body", EncodeTerminatedBody(b).fields, Terminated(b), DecodeTerminatedEvent);
  }

  lemma DecodeHeldThreadEvent(o: seq<Member>, b: ThreadEventBody)
    requires Get(o, "body") == Some(EncodeThreadBody(b))
    ensures DecodeLateEventBody(15, o) == Ok(Thread(b))
  {
    ThreadBodyRoundTrip(b);
    ContentRoundTrip(o, "body", EncodeThreadBody(b).fields, Thread(b), DecodeThreadEvent);
  }

  /** Any object whose `body` member is the payload of `e` yields `e`. */
  lemma DecodeHeldEventBody(o: seq<Member>, e: Event)
    requires WellFormed(e)
    requires Get(o, "body") == EventBody(e)
    ensures DecodeEventBody(EventIndex(e), o) == Ok(e)
  {
    if e.Capabilities? {
      DecodeHeldCapabilitiesEvent(o, e.capabilitiesBody);
    } else if EventIndex(e) < 8 {
      DecodeHeldEarlyEventBody(o, e);
    } else {
      DecodeHeldLateEventBody(o, e);
    }
  }

  lemma DecodeHeldEarlyEventBody(o: seq<Member>, e: Event)
    requires EventIndex(e) < 8 && !e.Capabilities?
    requires Get(o, "body") == EventBody(e)
    ensures DecodeEarlyEventBody(EventIndex(e), o) == Ok(e)
  {
    match e
    case Breakpoint(b) => DecodeHeldBreakpointEvent(o, b);
    case Continued(b) => DecodeHeldContinuedEvent(o, b);
    case Exited(b) => DecodeHeldExitedEvent(o, b);
    case Invalidated(b) => DecodeHeldInvalidatedEvent(o, b);
    case LoadedSource(b) => DecodeHeldLoadedSourceEvent(o, b);
    case Module(b) => DecodeHeldModuleEvent(o, b);
    case Initialized =>
    case _ =>
  }

  lemma DecodeHeldLateEventBody(o: seq<Member>, e: Event)
    requires 8 <= EventIndex(e) && WellFormed(e)
    requires Get(o, "body") == EventBody(e)
    ensures DecodeLateEventBody(EventIndex(e), o) == Ok(e)
  {
    match e
    case Output(b) => DecodeHeldOutputEvent(o, b);
    case Process(b) => DecodeHeldProcessEvent(o, b);
    case ProgressEnd(b) => DecodeHeldProgressEndEvent(o, b);
    case ProgressStart(b) => DecodeHeldProgressStartEvent(o, b);
    case ProgressUpdate(b) => DecodeHeldProgressUpdateEvent(o, b);
    case Stopped(b) => DecodeHeldStoppedEvent(o, b);
    case Terminated(b) => DecodeHeldTerminatedEvent(o, b);
    case Thread(b) => DecodeHeldThreadEvent(o, b);
    case _ =>
  }

  /** decode(encode(e)) == e for every event that does not hold a null
      `Option<Value>`. */
  lemma EventRoundTrip(e: Event)
    requires WellFormed(e)
    ensures DecodeEvent(EncodeEvent(e)) == Ok(e)
  {
    GetTagged("event", EventName(e), "body", EventBody(e));
    EventNameRecognised(e);
    DecodeHeldEventBody(EncodeEvent(e), e);
  }

  /** `initialized` is written as its tag alone. */
  lemma InitializedHasNoBody()
    ensures EventBody(Initialized) == None
    ensures EncodeEvent(Initialized) == [Member("event", JString(EventName(Initialized)))]
    ensures EventName(Initialized) == "initialized" && EventIndex(Initialized) == 4
  {
  }

  /** A null `restart` is written as null and read back as None. */
  lemma NullRestartCollapses()
    ensures Get(EncodeTerminatedBody(TerminatedEventBody(Some(JNull))).fields, "restart") == Some(JNull)
    ensures DecodeTerminatedBody(EncodeTerminatedBody(TerminatedEventBody(Some(JNull))).fields)
         == Ok(TerminatedEventBody(None))
  {
    GetMembers(TerminatedKeys, TerminatedValues(TerminatedEventBody(Some(JNull))), 0);
  }

  /** A null `data` is written as null and read back as None; every other
      member still reads back as itself. */
  lemma NullDataCollapses(b: OutputEventBody)
    requires b.data == Some(JNull)
    ensures Get(EncodeOutputBody(b).fields, "data") == Some(JNull)
    ensures DecodeOutputBody(EncodeOutputBody(b).fields) == Ok(b.(data := None))
  {
    var o := EncodeOutputBody(b).fields;
    OutputMembersShape(b);
    ReadOutputFields0(o, b);
    OptionalRoundTrip(o, "source", b.source, EncodeOpaque, DecodeObject);
    OptionalRoundTrip(o, "line", b.line, EncodeI32, DecodeI32);
    OptionalRoundTrip(o, "column", b.column, EncodeI32, DecodeI32);
    DecodeOutputFields(o, b.(data := None));
  }

  /** An event is written as its tag and its body and nothing else. */
  lemma EventOnlyOwnKeys(e: Event, k: string)
    requires k != "event" && k != "body"
    ensures Get(EncodeEvent(e), k) == None
  {
  }

  /** Decoding reads members by name only. */
  lemma DecodeEventReadsByName(a: seq<Member>, b: seq<Member>)
    requires SameFields(a, b)
    ensures DecodeEvent(a) == DecodeEvent(b)
  {
    assert Get(a, "event") == Get(b, "event");
    assert Get(a, "body") == Get(b, "body");
    match EventTag(a)
    case None =>
    case Some(tag) =>
      match Lookup(EventTags, tag)
      case None =>
      case Some(i) =>
        if i < 8 {
          EarlyEventBodyReadsBody(i, a, b);
        } else {
          LateEventBodyReadsBody(i, a, b);
        }
  }

  /** A payload decoder reads only the `body` member. */
  lemma EarlyEventBodyReadsBody(i: nat, a: seq<Member>, b: seq<Member>)
    requires i < 8 && Get(a, "body") == Get(b, "body")
    ensures DecodeEarlyEventBody(i, a) == DecodeEarlyEventBody(i, b)
  {
  }

  /** A payload decoder reads only the `body` member. */
  lemma LateEventBodyReadsBody(i: nat, a: seq<Member>, b: seq<Member>)
    requires 8 <= i < EventCount && Get(a, "body") == Get(b, "body")
    ensures DecodeLateEventBody(i, a) == DecodeLateEventBody(i, b)
  {
  }
}
