# Debug Adapter Protocol messages, modelled in Dafny

This project models the message schema of a Rust library for the Debug
Adapter Protocol (DAP). The library describes each protocol message as a Rust
type and lets serde derive how that type is written to JSON and read back.
The model states that mapping as pure Dafny functions over an abstract JSON
value, then proves what the derived code promises:

- each decoder reads back what its encoder wrote;
- each encoder skips exactly the fields it should skip;
- each decoder reports a missing field, a wrong type or an unknown tag as the
  derived code does;
- the order of an object's members does not change what it decodes to.

The modules follow the library's files:

- `Utils` (`src/utils.rs`): `true_` and `eq_default`, the helpers the field
  attributes name.
- `Json`: the abstract JSON value and its lookups. It also holds one
  function per serde field policy: `Required`, `Optional` for
  `Option<T>`, `Defaulted` for `#[serde(default)]`, `SkipNone`,
  `SkipDefault` for `skip_serializing_if = "eq_default"`, and `SkipEmpty`.
  An object is a sequence of members. A lookup finds the first member with
  the key, as serde_json's map does for objects without repeated keys.
- `Types` (`src/types.rs`): `Capabilities`, a record of 33 defaulted
  booleans. Only the set flags are written, in declaration order.
- `Requests` (`src/requests.rs`): `RequestCommand`, adjacently tagged with
  `command` and `arguments`, and `PathFormat`.
- `Responses` (`src/responses.rs`): `ResponseCommand`, adjacently tagged with
  `command` and `body`. `ResponseType` has a hand-written serializer and
  deserializer keyed on the boolean `success`. `Response` adds
  `request_seq` to a flattened `ResponseType`.
- `Events` (`src/events.rs`): `Event`, adjacently tagged with `event` and
  `body`, with its sixteen payload records and eight string enums.
- `Protocol` (`src/lib.rs`): `ProtocolMessage`, which holds `seq` and a
  flattened `ProtocolMessageType` internally tagged by `type`. It also
  restates the library's own JSON test vectors as lemmas.

Errors are `MissingField(name)`, `InvalidType` and `UnknownVariant(tag)`.
They stand for serde's `missing_field`, `invalid_type`/`invalid_value` and
`unknown_variant`.

Integer fields keep their Rust widths as subset types: `u8`, `i32` and `u64`.
A number outside the range is an `InvalidType` error. Fields of type
`serde_json::Value` are kept as JSON. serde reads a JSON null in an
`Option<Value>` field as `None`, so `Some(null)` does not survive a round
trip. Each lemma affected by this carries a `WellFormed` precondition, and a
separate lemma shows the collapse.

## Model

| member | source | states |
|---|---|---|
| Utils.EqDefaultBool | src/utils.rs:5-7 | `eq_default` on a bool holds exactly when it is false, so a defaulted flag is skipped exactly when false |
| Json.GetFinds | src/lib.rs:16-25 | a lookup returns a member of the object, and returns nothing exactly when no member has the key |
| Json.With | src/types.rs:6-165 | writing a present field makes the lookup of that key return it and leaves every other key's lookup unchanged; an absent (skipped) field changes nothing |
| Json.GetMembers | src/events.rs:106-526 | in a record written field by field with distinct names, looking up a field name returns that field's encoding (or nothing when it was skipped) |
| Json.GetMembersUnlisted | src/events.rs:106-526 | a record written field by field has no member under a key that is not one of its field names |
| Json.Lookup | src/events.rs:9-103 | recognising a tag returns its position in the variant table, and returns nothing exactly when the tag names no variant |
| Json.LookupDistinct | src/events.rs:9-103 | with distinct variant names, each name is recognised as its own position |
| Json.Without | src/lib.rs:16-25 | the object a flattened field sees: the consumed key is gone and every other key reads as before |
| Json.WithoutAbsent | src/lib.rs:16-25 | removing a key the object does not have leaves it unchanged |
| Json.WithoutWith | src/lib.rs:16-25 | removing the key just written in front restores the rest of the object |
| Json.WithoutSameFields | src/lib.rs:16-25 | objects that agree on every key still agree after the same key is removed from both |
| Json.GetFindsMember | src/lib.rs:16-25 | without repeated keys, a member is in the object exactly when looking up its key returns its value |
| Json.PermutedFieldsAgree | src/lib.rs:16-25 | two reorderings of the same members without repeated keys agree on every lookup |
| Json.DecodeBool | src/requests.rs:34-40 | a bool decodes exactly from a JSON boolean, to its value |
| Json.DecodeString | src/requests.rs:17-27 | a string decodes exactly from a JSON string, to its value |
| Json.DecodeU64 | src/lib.rs:13-20 | a `u64` decodes exactly from an integer in 0..2^64 |
| Json.DecodeI32 | src/events.rs:152-156 | an `i32` decodes exactly from an integer in -2^31..2^31 |
| Json.DecodeU8 | src/events.rs:359-393 | a `u8` decodes exactly from an integer in 0..256 |
| Json.DecodeObject | src/events.rs:222-254 | an opaque record decodes exactly from a JSON object, kept verbatim |
| Json.DecodeItems | src/events.rs:411-463 | a `Vec` decodes exactly when every item decodes, and then holds one value per item, each the decoding of its item |
| Json.DecodeArray | src/events.rs:411-463 | a `Vec` decodes exactly from a JSON array whose every item decodes, and then holds one value per item, each the decoding of its item |
| Json.ItemsRoundTrip | src/events.rs:411-463 | a `Vec` reads back item by item what was written |
| Json.RequiredRoundTrip | src/requests.rs:25-27 | a required field reads back what was written |
| Json.Optional | src/requests.rs:17-23 | an `Option` field reads as None exactly when absent or null, and otherwise as the decoding of the value stored |
| Json.OptionalRoundTrip | src/requests.rs:17-23 | an `Option` field with `skip_serializing_if = "Option::is_none"` reads back what was written, absent as None |
| Json.DefaultedRoundTrip | src/requests.rs:48-70 | a `#[serde(default)]` field reads back what was written, and a skipped default reads back as the default |
| Json.DefaultedItemsRoundTrip | src/events.rs:159-171 | a defaulted `Vec` skipped when empty reads back what was written |
| Json.GetTagged | src/requests.rs:5-7 | an adjacently tagged value holds its tag under the tag key and its content under the content key |
| Json.ContentRoundTrip | src/requests.rs:5-7 | the content of an adjacently tagged value is read back from the object under the content key |
| Types.EncodeFlags | src/types.rs:6-165 | the encoding of a flag record has at most one member per flag |
| Types.EncodedFlagsAreSet | src/types.rs:6-165 | only set flags are written, each as `name: true` |
| Types.EncodedInOrder | src/types.rs:6-165 | the written members follow declaration order |
| Types.NoFlagsNoMembers | src/types.rs:6-165 | a record with no flag set is written as no members |
| Types.GetEncodeFlags | src/types.rs:6-165 | looking up a flag's name in the encoding returns `true` exactly when the flag is set |
| Types.GetEncodeFlagsUnlisted | src/types.rs:6-165 | the encoding has no member outside the flag names |
| Types.DecodeFlags | src/types.rs:6-165 | a decoded flag record has one flag per name |
| Types.DecodeFlagsMeaning | src/types.rs:6-165 | decoding succeeds exactly when every flag present is a boolean, and a flag is set exactly when the object holds `name: true` |
| Types.FlagsRoundTrip | src/types.rs:6-165 | with distinct names, a flag record reads back as written |
| Types.CapabilityNamesDistinct | src/types.rs:6-165 | the 33 wire names of `Capabilities` are distinct |
| Types.CapabilityNamesAsWrittenDistinct | src/types.rs:60-62 | the names stay distinct with the misspelt field name |
| Types.CapabilitiesRoundTrip | src/types.rs:6-165 | `Capabilities` reads back as written |
| Types.CapabilitiesAsWrittenRoundTrip | src/types.rs:60-62 | `DecodeCapabilitiesAsWritten` reads back what `EncodeCapabilitiesAsWritten`, with the misspelt field name, writes |
| Types.DefaultCapabilitiesEncodeEmpty | src/types.rs:6-165 | default capabilities are written as an empty object |
| Types.NoMembersNoFlags | src/types.rs:6-165 | an object with none of the flag names decodes to all flags false |
| Types.EmptyObjectDecodesDefault | src/types.rs:6-165 | `{}` decodes to the default capabilities |
| Types.ListedFlags | src/types.rs:6-165 | an object listing some flags as true has one member per listed flag |
| Types.GetListedFlags | src/types.rs:6-165 | such an object returns `true` exactly for the listed names |
| Types.DecodeListedFlags | src/types.rs:6-165 | such an object decodes to exactly the listed flags set |
| Types.ModulesRequestObject | src/types.rs:60-62 | the object announcing `supportsModulesRequest` is `{"supportsModulesRequest": true}` |
| Types.ModulesRequestFlagLostAsWritten | src/types.rs:60-62 | with the field name as written, that object decodes to all flags false |
| Types.ModulesRequestFlagSet | src/types.rs:60-62 | with the protocol's name, that object sets exactly that flag |
| Types.TestResponseObject | src/lib.rs:148-232 | the tests' capabilities object, six flags listed by position, is those six names with `true`, in declaration order |
| Types.PartialObjectDecodesListedFlags | src/lib.rs:148-190 | the tests' capabilities object decodes to exactly those six flags set and every other flag false |
| Types.EncodeListedFlags | src/types.rs:6-165 | a flag record whose set flags are exactly the listed positions, in increasing order, is written as the object listing those flags |
| Types.TestResponseCapabilities | src/lib.rs:191-232 | the capabilities with the tests' six flags set are written as exactly those six names with `true`, in declaration order |
| Types.EncodeCapabilitiesMeaning | src/types.rs:6-165 | the encoded capabilities hold `name: true` for each set flag, nothing for a clear one, and no member outside the 33 names |
| Types.DecodeCapabilitiesMeaning | src/types.rs:6-165 | capabilities decode exactly from an object whose every flag is absent or a boolean, and a flag is set exactly when the object holds `name: true` |
| Requests.ParsePathFormat | src/requests.rs:74-79 | a path format is recognised from exactly its lower-case wire name |
| Requests.DecodePathFormat | src/requests.rs:74-79 | only the strings `"path"` and `"uri"` decode, each to the value that writes it; other strings are unknown variants |
| Requests.PathFormatDefault | src/requests.rs:81-85 | the default path format is `path`, and it is the only value `eq_default` skips |
| Requests.DecodeInitializeArguments | src/requests.rs:15-71 | `adapterID` is required; each absent field takes its default (None, true for the `…StartAt1` flags, `path`, false for the `supports…` flags) |
| Requests.DecodeAttachArguments | src/requests.rs:8-14 | `__restart` decodes when absent, null or a string; absent or null reads as None |
| Requests.DecodeRequest | src/requests.rs:5-14 | a missing `command` is a missing field, an unknown one an unknown variant, a missing `arguments` a missing field; a decoded request carries its own command name |
| Requests.InitializeMembersShape | src/requests.rs:15-71 | `EncodeInitializeArguments` writes the `initialize` arguments field by field under their wire names |
| Requests.InitializeElision | src/requests.rs:15-71 | each optional field is skipped exactly when None, each `supports…` flag exactly when false, `pathFormat` exactly at its default; the `…StartAt1` flags are always written |
| Requests.PathFormatAlwaysWrittenAsWritten | src/requests.rs:45-46 | `EncodeInitializeArgumentsAsWritten`, the attributes as written, always writes `pathFormat` |
| Requests.DecodeHeldInitialize | src/requests.rs:15-71 | an object holding every field's encoding decodes to those arguments |
| Requests.DecodeHeldInitializeRequest | src/requests.rs:5-7 | an object tagged `initialize` whose `arguments` decode to some arguments reads back as that request, whatever else it holds |
| Requests.InitializeRequestMembers | src/requests.rs:5-7 | an `initialize` request is written as its tag, then its arguments |
| Requests.TestArgumentsEncoding | src/lib.rs:99-146 | the tests' arguments are written as the eleven members the test expects, without `pathFormat` and `supportsMemoryReferences` |
| Requests.TestRequestEncoding | src/lib.rs:99-146 | the tests' request is written as its tag followed by those eleven members |
| Requests.TestArgumentsDecoding | src/lib.rs:47-97 | the twelve argument members the test gives, `pathFormat: "path"` included and `supportsMemoryReferences` absent, decode to the tests' arguments |
| Requests.InitializeArgumentsRoundTrip | src/requests.rs:15-71 | the arguments read back as written, with either `pathFormat` policy |
| Requests.AttachElision | src/requests.rs:8-14 | `__restart` is skipped exactly when None |
| Requests.AttachRoundTrip | src/requests.rs:8-14 | the `attach` arguments read back as written |
| Requests.RequestRoundTrip | src/requests.rs:5-72 | every request reads back as written |
| Requests.AttachRequestRoundTrip | src/requests.rs:8-14 | an `attach` request reads back as written |
| Requests.InitializeRequestRoundTrip | src/requests.rs:15-71 | an `initialize` request reads back as written |
| Requests.RequestOnlyOwnKeys | src/requests.rs:5-7 | a written request has no member other than `command` and `arguments` |
| Requests.DecodeRequestReadsByName | src/requests.rs:5-7 | decoding a request depends only on what each key holds |
| Responses.DecodeResponseCommand | src/responses.rs:34-38 | a missing `command` is a missing field and any name other than `initialize` an unknown variant; `initialize` without `body` is a missing field |
| Responses.DecodeResponseType | src/responses.rs:42-73 | a missing `success` is a missing field and a non-boolean an invalid type; true decodes the whole object as a response command, succeeding with it or failing with its error; false decodes exactly when `command` and `message` are strings, with `body` read as optional JSON |
| Responses.DecodeResponse | src/lib.rs:149-190 | `request_seq` is required; the response type is decoded from the other members |
| Responses.DecodeHeldResponseCommand | src/responses.rs:34-38 | an object holding the tag and the capabilities decodes to that command |
| Responses.SuccessResponseShape | src/responses.rs:99-145 | `EncodeResponseType` writes a success as `success: true`, then `command`, then `body` |
| Responses.ErrorResponseShape | src/responses.rs:99-145 | `EncodeResponseType` writes an error as `success: false`, `command`, `message`, `body`, with null for an absent body |
| Responses.ErrorArmAcceptsAnyCommand | src/responses.rs:56-70 | with `success: false`, any command string is accepted |
| Responses.SuccessArmRejectsOtherCommands | src/responses.rs:52-55 | with `success: true`, a command other than `initialize` is an unknown variant |
| Responses.ResponseTypeRoundTrip | src/responses.rs:42-145 | a response type reads back as written, for error bodies other than `Some(null)` |
| Responses.ReadErrorMembers | src/responses.rs:99-145 | an error's members hold `false`, the command, the message and the body or null |
| Responses.NullErrorBodyCollapses | src/responses.rs:57-69 | an error body of `Some(null)` reads back as None |
| Responses.ResponseKeyOrder | src/lib.rs:282-328 | `EncodeResponse` writes `request_seq` first, then `success` |
| Responses.ResponseRoundTrip | src/lib.rs:234-328 | a response reads back as written, for error bodies other than `Some(null)` |
| Responses.ResponseTypeOnlyOwnKeys | src/responses.rs:99-145 | a written response type has no member outside `success`, `command`, `message` and `body` |
| Responses.ResponseOnlyOwnKeys | src/lib.rs:282-328 | a written response adds only `request_seq` to those keys |
| Responses.DecodeResponseReadsByName | src/responses.rs:42-73 | decoding a response depends only on what each key holds |
| Events.ParseBreakpointEventReason | src/events.rs:116-127 | a breakpoint reason is recognised from exactly its wire name |
| Events.ParseLoadedSourceEventReason | src/events.rs:184-195 | a loaded-source reason is recognised from exactly its wire name |
| Events.ParseModuleEventReason | src/events.rs:208-219 | a module reason is recognised from exactly its wire name |
| Events.ParseOutputCategory | src/events.rs:256-278 | an output category is recognised from exactly its wire name |
| Events.OutputCategoryEqDefault | src/events.rs:280-284 | the default category is `console`, the only one `eq_default` skips |
| Events.ParseOutputGroup | src/events.rs:286-306 | an output group is recognised from exactly its wire name |
| Events.ParseProcessStartMethod | src/events.rs:331-345 | a start method is recognised from exactly its wire name |
| Events.ParseStoppedEventReason | src/events.rs:465-496 | a stop reason is recognised from exactly its wire name |
| Events.ParseThreadEventReason | src/events.rs:518-526 | a thread reason is recognised from exactly its wire name |
| Events.EnumsDecodeExactly | src/events.rs:116-526 | each string enum decodes a JSON string exactly to the variant with that name; any other string is an unknown variant |
| Events.DecodeBreakpointBody | src/events.rs:104-114 | `reason` and `breakpoint` are required; decoding succeeds exactly when `reason` is one of the reason names and `breakpoint` an object, and then returns those two |
| Events.DecodeCapabilitiesBody | src/events.rs:128-134 | `capabilities` is required |
| Events.DecodeContinuedBody | src/events.rs:135-149 | `threadId` is required; an absent `allThreadsContinued` is false |
| Events.DecodeExitedBody | src/events.rs:150-156 | decodes exactly when `exitCode` is an `i32`, to that code |
| Events.DecodeInvalidatedBody | src/events.rs:157-171 | absent `areas` is empty and a present one is the array of the decoded strings; `threadId` and `stackFrameId` are None exactly when absent or null, and otherwise the integer stored |
| Events.DecodeLoadedSourceBody | src/events.rs:172-182 | `reason` and `source` are required; decoding succeeds exactly when `reason` is one of the reason names and `source` an object, and then returns those two |
| Events.DecodeModuleBody | src/events.rs:196-206 | `reason` and `module` are required; decoding succeeds exactly when `reason` is one of the reason names and `module` an object, and then returns those two |
| Events.DecodeOutputBody | src/events.rs:220-254 | `output` is required; an absent `category` is `console`; decoded `data` is never null |
| Events.DecodeProcessBody | src/events.rs:307-329 | `name` is required |
| Events.DecodeProgressEndBody | src/events.rs:346-356 | `progressId` is required and is the string stored; `message` is None exactly when absent or null, and otherwise the string stored |
| Events.DecodeProgressStartBody | src/events.rs:357-393 | `progressId` and `title` are required; an absent `cancellable` is false; a `percentage` outside 0..255 is rejected |
| Events.DecodeProgressUpdateBody | src/events.rs:394-408 | `progressId` is required and is the string stored; `message` and `percentage` are None exactly when absent or null, and otherwise the value stored; a `percentage` outside 0..255 is rejected |
| Events.DecodeStoppedBody | src/events.rs:409-463 | `reason` is required; absent flags are false and absent `hitBreakpointIds` is empty |
| Events.DecodeTerminatedBody | src/events.rs:497-505 | always decodes; `restart` is present exactly when the object holds a non-null one |
| Events.DecodeThreadBody | src/events.rs:506-516 | `reason` and `threadId` are required, and a decoded body holds the reason name and integer stored |
| Events.BreakpointBodyRoundTrip | src/events.rs:104-114 | the breakpoint payload reads back as written |
| Events.CapabilitiesBodyRoundTrip | src/events.rs:128-134 | the capabilities payload reads back as written |
| Events.DecodeHeldCapabilities | src/events.rs:128-134 | an object holding encoded capabilities decodes to them |
| Events.ContinuedBodyRoundTrip | src/events.rs:135-149 | the continued payload reads back as written |
| Events.ExitedBodyRoundTrip | src/events.rs:150-156 | the exited payload reads back as written |
| Events.InvalidatedBodyRoundTrip | src/events.rs:157-171 | the invalidated payload reads back as written |
| Events.LoadedSourceBodyRoundTrip | src/events.rs:172-182 | the loaded-source payload reads back as written |
| Events.ModuleBodyRoundTrip | src/events.rs:196-206 | the module payload reads back as written |
| Events.OutputMembersShape | src/events.rs:220-254 | `EncodeOutputBody` writes the output payload field by field under its wire names |
| Events.DecodeHeldOutput | src/events.rs:220-254 | an object holding each field's encoding decodes to that payload |
| Events.OutputBodyRoundTrip | src/events.rs:220-254 | the output payload reads back as written, for `data` other than `Some(null)` |
| Events.ProcessMembersShape | src/events.rs:307-329 | `EncodeProcessBody` writes the process payload field by field under its wire names |
| Events.DecodeHeldProcess | src/events.rs:307-329 | an object holding each field's encoding decodes to that payload |
| Events.ProcessBodyRoundTrip | src/events.rs:307-329 | the process payload reads back as written |
| Events.ProgressEndBodyRoundTrip | src/events.rs:346-356 | the progress-end payload reads back as written |
| Events.ProgressStartMembersShape | src/events.rs:357-393 | `EncodeProgressStartBody` writes the progress-start payload field by field under its wire names |
| Events.DecodeHeldProgressStart | src/events.rs:357-393 | an object holding each field's encoding decodes to that payload |
| Events.ProgressStartBodyRoundTrip | src/events.rs:357-393 | the progress-start payload reads back as written |
| Events.ProgressUpdateBodyRoundTrip | src/events.rs:394-408 | the progress-update payload reads back as written |
| Events.StoppedMembersShape | src/events.rs:409-463 | `EncodeStoppedBody` writes the stopped payload field by field under its wire names |
| Events.DecodeHeldStopped | src/events.rs:409-463 | an object holding each field's encoding decodes to that payload |
| Events.StoppedBodyRoundTrip | src/events.rs:409-463 | the stopped payload reads back as written |
| Events.TerminatedBodyRoundTrip | src/events.rs:497-505 | the terminated payload reads back as written, for `restart` other than `Some(null)` |
| Events.ThreadBodyRoundTrip | src/events.rs:506-516 | the thread payload reads back as written |
| Events.ContinuedElision | src/events.rs:135-149 | `threadId` is always written; `allThreadsContinued` is skipped exactly when false |
| Events.InvalidatedElision | src/events.rs:157-171 | `areas` is skipped exactly when empty, the ids exactly when None |
| Events.OutputElision | src/events.rs:220-254 | `category` is skipped exactly at `console`, each optional field exactly when None; `output` is always written |
| Events.ProcessElision | src/events.rs:307-329 | `name` is always written, each optional field skipped exactly when None |
| Events.ProgressStartElision | src/events.rs:357-393 | `title` is always written; `cancellable` is skipped exactly when false, each optional field exactly when None |
| Events.StoppedElision | src/events.rs:409-463 | `reason` is always written; the flags are skipped exactly when false, `hitBreakpointIds` exactly when empty, each optional field exactly when None |
| Events.EventIndex | src/events.rs:9-103 | each event has a position among the sixteen variants |
| Events.DecodeEventBody | src/events.rs:9-103 | a decoded payload belongs to the variant at that position; `initialized` accepts exactly a missing or null `body`; every other variant needs `body` |
| Events.DecodeEarlyEventBody | src/events.rs:9-64 | the same, for the first eight variants |
| Events.DecodeLateEventBody | src/events.rs:65-103 | the same, for the last eight variants, all of which need `body` |
| Events.DecodeEvent | src/events.rs:9-103 | a missing `event` is a missing field and an unknown tag an unknown variant; a decoded event is the variant its tag names; a missing `body` is rejected except for `initialized` |
| Events.EventTagsDistinct | src/events.rs:9-103 | the sixteen event names are distinct |
| Events.EventNameRecognised | src/events.rs:9-103 | each event's name is recognised as its own variant |
| Events.DecodeHeldEventBody | src/events.rs:9-103 | an object holding an event's payload under `body` decodes to that event |
| Events.EventRoundTrip | src/events.rs:9-103 | every event reads back as written, for payloads without a `Some(null)` value |
| Events.InitializedHasNoBody | src/events.rs:50-51 | `initialized` is written as `{"event": "initialized"}` alone |
| Events.NullRestartCollapses | src/events.rs:497-505 | a `restart` of `Some(null)` is written as null and reads back as None |
| Events.NullDataCollapses | src/events.rs:220-254 | a `data` of `Some(null)` is written as null and reads back as None |
| Events.EventOnlyOwnKeys | src/events.rs:9-11 | `EncodeEvent` writes no member other than `event` and `body` |
| Events.DecodeEventReadsByName | src/events.rs:9-11 | decoding an event depends only on what each key holds |
| Events.EarlyEventBodyReadsBody | src/events.rs:9-64 | decoding a payload of the first eight variants reads only `body` |
| Events.LateEventBodyReadsBody | src/events.rs:65-103 | decoding a payload of the last eight variants reads only `body` |
| Protocol.MessageTypeName | src/lib.rs:27-39 | each message type is tagged `request`, `response` or `event` |
| Protocol.DecodeTaggedMessageType | src/lib.rs:27-39 | a tag other than the three is an unknown variant; a decoded message type carries the tag it was read from |
| Protocol.DecodeMessageType | src/lib.rs:27-39 | a missing `type` is a missing field, a non-string an invalid type, an unknown string an unknown variant; a decoded type matches its tag |
| Protocol.MissingSeqRejected | src/lib.rs:16-25 | a message without `seq` is a missing field |
| Protocol.SeqOutOfRangeRejected | src/lib.rs:13-20 | a `seq` that is not a `u64` is an invalid type |
| Protocol.DecodedEnvelope | src/lib.rs:16-25 | a decoded message's number is its `seq`, and its type is decoded from the other members |
| Protocol.MissingTypeRejected | src/lib.rs:27-39 | a message with a valid `seq` but no `type` is a missing field |
| Protocol.UnknownTypeRejected | src/lib.rs:27-39 | a message with an unknown `type` string is an unknown variant |
| Protocol.PayloadOmitsEnvelopeKeys | src/lib.rs:16-39 | no payload writes `seq` or `type` |
| Protocol.DecodeHeldRequest | src/lib.rs:31-32 | tag `request` with a decodable request decodes to it |
| Protocol.DecodeHeldResponse | src/lib.rs:34-35 | tag `response` with a decodable response decodes to it |
| Protocol.DecodeHeldEvent | src/lib.rs:37-38 | tag `event` with a decodable event decodes to it |
| Protocol.MessageTypeRoundTrip | src/lib.rs:27-39 | every message type reads back as written, for payloads without a `Some(null)` value |
| Protocol.ProtocolMessageRoundTrip | src/lib.rs:16-39 | every message reads back as written, for payloads without a `Some(null)` value |
| Protocol.EnvelopeKeyOrder | src/lib.rs:16-39 | `EncodeProtocolMessage` writes `seq`, then `type` (`EncodeMessageType`), then the members of its payload |
| Protocol.DecodeHeldMessage | src/lib.rs:16-25 | an object holding a `seq` whose other members decode to a message type reads back as that message |
| Protocol.DecodeReadsByName | src/lib.rs:16-25 | decoding a message depends only on what each key holds |
| Protocol.DecodeMessageTypeReadsByName | src/lib.rs:27-39 | decoding a message type depends only on what each key holds |
| Protocol.DecodeTaggedReadsByName | src/lib.rs:27-39 | decoding a tagged payload depends only on what each key holds |
| Protocol.MemberOrderIrrelevant | src/lib.rs:16-39 | any reordering of an object without repeated keys decodes to the same message |
| Protocol.ExitedEventMessage | src/lib.rs:355-378 | the `exited` event with code 0 is written as the test expects |
| Protocol.ExitedEventMessageDecoding | src/lib.rs:330-353 | the test's `exited` object decodes to that event |
| Protocol.ErrorResponseMessageEncoding | src/lib.rs:282-328 | the failed `initialize` response is written as the test expects |
| Protocol.ErrorResponseMessageDecoding | src/lib.rs:234-280 | the test's failed-response object decodes to that response |
| Protocol.InitializeRequestMessageEncoding | src/lib.rs:99-146 | the tests' `initialize` request message is written as `seq`, `type`, `command` and the expected eleven argument members |
| Protocol.InitializeRequestEnvelopeLast | src/lib.rs:47-97 | an `initialize` request given as `command`, `arguments`, `type`, `seq` decodes to that request whenever its arguments decode |
| Protocol.InitializeRequestMessageDecoding | src/lib.rs:47-97 | the test's request object, envelope last, decodes to the tests' `initialize` request |
| Protocol.SuccessResponseMessageEncoding | src/lib.rs:191-232 | the successful `initialize` response is written exactly as the test expects |
| Protocol.SuccessResponseMessageDecoding | src/lib.rs:148-189 | the test's successful-response object decodes to that response |

## Left out

- `src/main.rs`, the schema generator, is not part of this model.
- JSON text is not modelled: no parsing, printing, whitespace or escapes. Objects are member sequences and numbers are integers. Floating-point values are not represented.
- Objects with repeated keys are left out. A lookup takes the first member, while serde_json keeps the last one and derived structs report a duplicate field.
- Error messages are kept as error kinds, without their text. The library's `Error::custom(e.to_string())` re-wrapping in `src/responses.rs:54` and `:65` keeps the inner error's kind in the model. `unexpected_value` and `unexpected_number` (`src/responses.rs:75-97`) only render text for error messages and are not modelled.
- When several fields are wrong, the model reports the first in declaration order. Which one serde reports depends on member order in the input.
- serde also accepts a struct as a JSON array of its fields, and an enum variant by its index. Neither form is modelled.
- Json.DecodeVariant: accepts a fieldless enum value only as its wire string. serde also accepts the one-member object `{"<name>": null}` for it, so `"pathFormat": {"uri": null}` or `"reason": {"changed": null}` decode in the library and are an `InvalidType` error in the model.
- Requests.DecodePathFormat: states that only the strings `"path"` and `"uri"` decode; the one-member object form above is not modelled.
- Events.EnumsDecodeExactly: speaks of the string form of the eight event enums only; the one-member object form above is not modelled.
- `Breakpoint`, `Source` and `Module` are not part of this model. They are kept as any JSON object, verbatim. `InvalidatedAreas` is kept as a string.
- The `Request` and `Response` types imported by `src/lib.rs` are not part of this model. `Request` is taken to be `RequestCommand`. `Response` is taken to be `request_seq` plus a flattened `ResponseType`, the shape the tests in `src/lib.rs` use.
- `ErrorResponseBody` and `Message` are not part of this model. The error body is kept as the raw `Option<Value>` that `ResponseType::Error` declares.
- Protocol.ProtocolMessageRoundTrip: requires that no `Option<Value>` payload is `Some(null)`. serde reads that value back as `None`, as Responses.NullErrorBodyCollapses, Events.NullDataCollapses and Events.NullRestartCollapses show.
- Protocol.MessageTypeRoundTrip: requires the same `WellFormed` condition, for the same reason.
- Events.EventRoundTrip: requires that `data` of an output event and `restart` of a terminated event are not `Some(null)`, for the same reason.
- Events.OutputBodyRoundTrip: requires `data` other than `Some(null)`, for the same reason.
- Events.TerminatedBodyRoundTrip: requires `restart` other than `Some(null)`, for the same reason.
- Responses.ResponseTypeRoundTrip: requires an error body other than `Some(null)`, for the same reason.
- Responses.ResponseRoundTrip: requires an error body other than `Some(null)`, for the same reason.
- Requests.EncodeRequest: writes `initialize` arguments with the corrected `pathFormat` policy (skipped at `path`), and so do every message-level lemma and test vector built on it. The attributes as written are modelled by Requests.EncodeInitializeArgumentsAsWritten and shown by Requests.PathFormatAlwaysWrittenAsWritten (see Findings).
- Types.EncodeCapabilities: uses the protocol's name `supportsModulesRequest` for the misspelt field, and so does every message-level lemma built on it. The name as written is modelled by Types.EncodeCapabilitiesAsWritten (see Findings).
- Types.DecodeCapabilities: reads the protocol's name `supportsModulesRequest`, and so do the event and response decoders. The name as written is modelled by Types.DecodeCapabilitiesAsWritten and shown by Types.ModulesRequestFlagLostAsWritten.
- Protocol.DecodeProtocolMessage: has no `ensures` of its own. Its properties are stated by Protocol.MissingSeqRejected, Protocol.SeqOutOfRangeRejected, Protocol.DecodedEnvelope, Protocol.MissingTypeRejected and Protocol.UnknownTypeRejected.
- The documented 0 to 100 range of `percentage` (src/events.rs:390-392) is not enforced. The field is an `Option<u8>`, so the model, like serde, accepts any value from 0 to 255.

## Findings

| source | as written | input that shows it | evidently intended | confidence | as-written member | corrected member |
|---|---|---|---|---|---|---|
| src/requests.rs:45-46 | `pathFormat` has `#[serde(default)]` without `skip_serializing_if`, so it is always written | `initialize` arguments with `pathFormat: path`; the serialization test at src/lib.rs:99-146 expects no `pathFormat` member | skip `pathFormat` at its default `path`, as that test expects (the `…StartAt1` flags, also defaulted, stay always written) | not executed; the test builds `InitializeRequestArguments`, a name src/requests.rs does not declare, so it may predate the attributes as written | Requests.PathFormatAlwaysWrittenAsWritten | Requests.InitializeElision |
| src/types.rs:60-62 | the field is `supports_modules_requeststst`, so its wire name is `supportsModulesRequeststst` | `{"supportsModulesRequest": true}` decodes to all capabilities false | the DAP name `supportsModulesRequest` | not executed | Types.ModulesRequestFlagLostAsWritten | Types.ModulesRequestFlagSet |
