/**
 * The `Capabilities` record: a flat record of boolean feature flags, each
 * defaulting to false when absent and emitted only when true, in declaration
 * order. Encoding and decoding are a fold over the table of wire names.
 */
module Types {
  import opened Json
  import opened Utils

  const FlagCount := 33

  /** The wire names of the flags, in declaration order: the camelCase of the
      field names, with `supportsModulesRequest` spelled as the protocol
      spells it (see `CapabilityNamesAsWritten` for the name the record
      actually declares). */
  const CapabilityNames: seq<string> := [
    "supportsConfigurationDoneRequest",
    "supportsFunctionBreakpoints",
    "supportsConditionalBreakpoints",
    "supportsHitConditionalBreakpoints",
    "supportsEvaluateForHovers",
    "supportsStepBack",
    "supportsSetVariable",
    "supportsRestartFrame",
    "supportsGotoTargetsRequest",
    "supportsStepInTargetsRequest",
    "supportsCompletionsRequest",
    "supportsModulesRequest",
    "supportsRestartRequest",
    "supportsExceptionOptions",
    "supportsValueFormattingOptions",
    "supportsExceptionInfoRequest",
    "supportTerminateDebuggee",
    "supportSuspendDebuggee",
    "supportsDelayedStackTraceLoading",
    "supportsLoadedSourcesRequest",
    "supportsLogPoints",
    "supportsTerminateThreadsRequest",
    "supportsSetExpression",
    "supportsTerminateRequest",
    "supportsDataBreakpoints",
    "supportsReadMemoryRequest",
    "supportsDisassembleRequest",
    "supportsCancelRequest",
    "supportsBreakpointLocationsRequest",
    "supportsClipboardContext",
    "supportsSteppingGranularity",
    "supportsInstructionBreakpoints",
    "supportsExceptionFilterOptions"
  ]

  /** The table as the record declares it: field 11 is `supports_modules_requeststst`. */
  const CapabilityNamesAsWritten: seq<string> := CapabilityNames[11 := "supportsModulesRequeststst"]

  /** One value per flag, in the order of `CapabilityNames`. */
  type Capabilities = flags: seq<bool> | |flags| == FlagCount witness seq(FlagCount, _ => false)

  /** `Capabilities::default()`: every flag false. */
  const DefaultCapabilities: Capabilities := seq(FlagCount, _ => false)


  /** `key` comes before `later` in the table. */
  ghost predicate Before(names: seq<string>, key: string, later: string) {
    exists i, j :: 0 <= i < j < |names| && names[i] == key && names[j] == later
  }

  /** The members a record of flags encodes to: each true flag as
      `name: true`, each false one skipped (`skip_serializing_if =
      "eq_default"`), in table order. */
  function EncodeFlags(names: seq<string>, flags: seq<bool>): (r: seq<Member>)
    requires |flags| == |names|
    ensures |r| <= |names|
    decreases |flags|
  {
    if |names| == 0 then []
    else With(names[0], if EqDefault(flags[0], false) then None else Some(JBool(flags[0])), EncodeFlags(names[1..], flags[1..]))
  }

  /** Every member of `r` is `name: true` for a set flag. */
  ghost predicate EmitsSetFlags(names: seq<string>, flags: seq<bool>, r: seq<Member>)
    requires |flags| == |names|
  {
    forall a :: 0 <= a < |r| ==>
      r[a].value == JBool(true) && exists i :: 0 <= i < |names| && names[i] == r[a].key && flags[i]
  }

  /** The members of `r` follow the order of the table. */
  ghost predicate InTableOrder(names: seq<string>, r: seq<Member>) {
    forall a, b :: 0 <= a < b < |r| ==> Before(names, r[a].key, r[b].key)
  }

  /** Only set flags are emitted, each as `name: true`. */
  lemma {:induction false} EncodedFlagsAreSet(names: seq<string>, flags: seq<bool>)
    requires |flags| == |names|
    ensures EmitsSetFlags(names, flags, EncodeFlags(names, flags))
    decreases |names|
  {
    if |names| > 0 {
      var rest := EncodeFlags(names[1..], flags[1..]);
      var r := EncodeFlags(names, flags);
      EncodedFlagsAreSet(names[1..], flags[1..]);
      var d := if flags[0] then 1 else 0;
      assert r == if flags[0] then [Member(names[0], JBool(true))] + rest else rest;
      forall a | d <= a < |r|
        ensures r[a].value == JBool(true) && exists i :: 0 <= i < |names| && names[i] == r[a].key && flags[i]
      {
        assert r[a] == rest[a - d];
        var k :| 0 <= k < |names[1..]| && names[1..][k] == rest[a - d].key && flags[1..][k];
        assert names[k + 1] == r[a].key && flags[k + 1];
      }
      if flags[0] {
        assert r[0] == Member(names[0], JBool(true));
      }
    }
  }

  lemma BeforeInTail(names: seq<string>, key: string, later: string)
    requires |names| > 0 && Before(names[1..], key, later)
    ensures Before(names, key, later)
  {
    var i, j :| 0 <= i < j < |names[1..]| && names[1..][i] == key && names[1..][j] == later;
    assert names[i + 1] == key && names[j + 1] == later;
  }

  /** Flags are emitted in declaration order. */
  lemma {:induction false} EncodedInOrder(names: seq<string>, flags: seq<bool>)
    requires |flags| == |names|
    ensures InTableOrder(names, EncodeFlags(names, flags))
    decreases |names|
  {
    if |names| > 0 {
      var rest := EncodeFlags(names[1..], flags[1..]);
      var r := EncodeFlags(names, flags);
      EncodedInOrder(names[1..], flags[1..]);
      EncodedFlagsAreSet(names[1..], flags[1..]);
      forall a, b | 0 <= a < b < |r| ensures Before(names, r[a].key, r[b].key) {
        if flags[0] {
          assert r == [Member(names[0], JBool(true))] + rest;
          assert r[b] == rest[b - 1];
          if a == 0 {
            var k :| 0 <= k < |names[1..]| && names[1..][k] == r[b].key && flags[1..][k];
            assert names[0] == r[a].key && names[k + 1] == r[b].key;
          } else {
            assert r[a] == rest[a - 1];
            BeforeInTail(names, r[a].key, r[b].key);
          }
        } else {
          assert r == rest;
          BeforeInTail(names, r[a].key, r[b].key);
        }
      }
    }
  }

  /** A record with no flag set encodes to no members at all. */
  lemma {:induction false} NoFlagsNoMembers(names: seq<string>, flags: seq<bool>)
    requires |flags| == |names| && forall i :: 0 <= i < |flags| ==> !flags[i]
    ensures EncodeFlags(names, flags) == []
    decreases |names|
  {
    if |names| > 0 {
      assert !flags[0];
      NoFlagsNoMembers(names[1..], flags[1..]);
    }
  }

  /** Each flag of the table read as a `#[serde(default)]` boolean. */
  function ReadFlags(names: seq<string>, fields: seq<Member>): (r: seq<Result<bool>>)
    ensures |r| == |names|
    ensures forall i :: 0 <= i < |names| ==> r[i] == Defaulted(fields, names[i], DecodeBool, false)
  {
    seq(|names|, i requires 0 <= i < |names| => Defaulted(fields, names[i], DecodeBool, false))
  }

  /** Reads every flag of the table from an object: absent flags are false,
      present ones must be booleans, and any other value fails the whole
      record. */
  function DecodeFlags(names: seq<string>, fields: seq<Member>): (r: Result<seq<bool>>)
    ensures r.Ok? ==> |r.value| == |names|
  {
    var lookups := ReadFlags(names, fields);
    if forall i :: 0 <= i < |lookups| ==> lookups[i].Ok? then
      Ok(seq(|lookups|, i requires 0 <= i < |lookups| && lookups[i].Ok? => lookups[i].value))
    else
      Err(InvalidType)
  }

  /** Decoding succeeds exactly when every listed flag is absent or a
      boolean, and then each flag is true exactly when the object holds
      `name: true`. */
  lemma DecodeFlagsMeaning(names: seq<string>, fields: seq<Member>)
    ensures var r := DecodeFlags(names, fields);
      && (r.Ok? <==> forall i :: 0 <= i < |names| ==> Get(fields, names[i]).None? || Get(fields, names[i]).value.JBool?)
      && (r.Ok? ==> forall i :: 0 <= i < |names| ==> (r.value[i] <==> Get(fields, names[i]) == Some(JBool(true))))
  {
    var lookups := ReadFlags(names, fields);
    forall i | 0 <= i < |names|
      ensures lookups[i].Ok? <==> Get(fields, names[i]).None? || Get(fields, names[i]).value.JBool?
      ensures lookups[i].Ok? ==> (lookups[i].value <==> Get(fields, names[i]) == Some(JBool(true)))
    {
    }
  }

  /** A key that names no flag is never emitted. */
  lemma {:induction false} GetEncodeFlagsUnlisted(names: seq<string>, flags: seq<bool>, k: string)
    requires |flags| == |names| && k !in names
    ensures Get(EncodeFlags(names, flags), k) == None
    decreases |names|
  {
    if |names| > 0 {
      assert k !in names[1..];
      GetEncodeFlagsUnlisted(names[1..], flags[1..], k);
    }
  }

  /** Looking a flag's name up in the encoding finds `true` exactly when the
      flag is set, and an unlisted key finds nothing. */
  lemma {:induction false} GetEncodeFlags(names: seq<string>, flags: seq<bool>, i: nat)
    requires |flags| == |names| && DistinctNames(names) && i < |names|
    ensures Get(EncodeFlags(names, flags), names[i]) == if flags[i] then Some(JBool(true)) else None
    decreases i
  {
    if i > 0 {
      assert DistinctNames(names[1..]) by {
        forall a, b | 0 <= a < b < |names[1..]| ensures names[1..][a] != names[1..][b] {
          assert names[1..][a] == names[a + 1] && names[1..][b] == names[b + 1];
        }
      }
      var rest := EncodeFlags(names[1..], flags[1..]);
      assert EncodeFlags(names, flags) == With(names[0], if EqDefault(flags[0], false) then None else Some(JBool(flags[0])), rest);
      GetEncodeFlags(names[1..], flags[1..], i - 1);
      assert names[1..][i - 1] == names[i] && flags[1..][i - 1] == flags[i];
      assert names[i] != names[0];
    } else {
      assert names[0] !in names[1..] by {
        forall j | 0 <= j < |names[1..]| ensures names[1..][j] != names[0] {
          assert names[1..][j] == names[j + 1];
        }
      }
      GetEncodeFlagsUnlisted(names[1..], flags[1..], names[0]);
    }
  }


  /** Decoding the encoding of any record of flags gives the record back. */
  lemma FlagsRoundTrip(names: seq<string>, flags: seq<bool>)
    requires |flags| == |names| && DistinctNames(names)
    ensures DecodeFlags(names, EncodeFlags(names, flags)) == Ok(flags)
  {
    var o := EncodeFlags(names, flags);
    forall i | 0 <= i < |names|
      ensures Get(o, names[i]) == if flags[i] then Some(JBool(true)) else None
    {
      GetEncodeFlags(names, flags, i);
    }
    DecodeFlagsMeaning(names, o);
    var r := DecodeFlags(names, o);
    assert r.Ok?;
    assert r.value == flags;
  }

  function EncodeCapabilities(c: Capabilities): Json {
    JObject(EncodeFlags(CapabilityNames, c))
  }

  function DecodeCapabilities(j: Json): Result<Capabilities> {
    var fields :- DecodeObject(j);
    var flags :- DecodeFlags(CapabilityNames, fields);
    Ok(flags)
  }

  function EncodeCapabilitiesAsWritten(c: Capabilities): Json {
    JObject(EncodeFlags(CapabilityNamesAsWritten, c))
  }

  function DecodeCapabilitiesAsWritten(j: Json): Result<Capabilities> {
    var fields :- DecodeObject(j);
    var flags :- DecodeFlags(CapabilityNamesAsWritten, fields);
    Ok(flags)
  }

  // ----- distinctness of the 33 names, in slices -----
  // Proving all 528 pairs of names distinct in one obligation exceeds the
  // solver's budget, so NamesDistinctA to NamesDistinctK each cover a few
  // names against all later ones, and CapabilityNamesDistinct joins them.

  lemma NamesDistinctA(i: nat)
    requires 0 <= i < 3
    ensures forall j :: i < j < |CapabilityNames| ==> CapabilityNames[i] != CapabilityNames[j]
  {
    if i == 0 { } else if i == 1 { } else { }
  }

  lemma NamesDistinctB(i: nat)
    requires 3 <= i < 6
    ensures forall j :: i < j < |CapabilityNames| ==> CapabilityNames[i] != CapabilityNames[j]
  {
    if i == 3 { } else if i == 4 { } else { }
  }

  lemma NamesDistinctC(i: nat)
    requires 6 <= i < 9
    ensures forall j :: i < j < |CapabilityNames| ==> CapabilityNames[i] != CapabilityNames[j]
  {
    if i == 6 { } else if i == 7 { } else { }
  }

  lemma NamesDistinctD(i: nat)
    requires 9 <= i < 12
    ensures forall j :: i < j < |CapabilityNames| ==> CapabilityNames[i] != CapabilityNames[j]
  {
    if i == 9 { } else if i == 10 { } else { }
  }

  lemma NamesDistinctE(i: nat)
    requires 12 <= i < 15
    ensures forall j :: i < j < |CapabilityNames| ==> CapabilityNames[i] != CapabilityNames[j]
  {
    if i == 12 { } else if i == 13 { } else { }
  }

  lemma NamesDistinctF(i: nat)
    requires 15 <= i < 18
    ensures forall j :: i < j < |CapabilityNames| ==> CapabilityNames[i] != CapabilityNames[j]
  {
    if i == 15 { } else if i == 16 { } else { }
  }

  lemma NamesDistinctG(i: nat)
    requires 18 <= i < 21
    ensures forall j :: i < j < |CapabilityNames| ==> CapabilityNames[i] != CapabilityNames[j]
  {
    if i == 18 { } else if i == 19 { } else { }
  }

  lemma NamesDistinctH(i: nat)
    requires 21 <= i < 24
    ensures forall j :: i < j < |CapabilityNames| ==> CapabilityNames[i] != CapabilityNames[j]
  {
    if i == 21 { } else if i == 22 { } else { }
  }

  lemma NamesDistinctI(i: nat)
    requires 24 <= i < 27
    ensures forall j :: i < j < |CapabilityNames| ==> CapabilityNames[i] != CapabilityNames[j]
  {
    if i == 24 { } else if i == 25 { } else { }
  }

  lemma NamesDistinctJ(i: nat)
    requires 27 <= i < 30
    ensures forall j :: i < j < |CapabilityNames| ==> CapabilityNames[i] != CapabilityNames[j]
  {
    if i == 27 { } else if i == 28 { } else { }
  }

  lemma NamesDistinctK(i: nat)
    requires 30 <= i < 33
    ensures forall j :: i < j < |CapabilityNames| ==> CapabilityNames[i] != CapabilityNames[j]
  {
    if i == 30 { } else if i == 31 { } else { }
  }

  /** No two flags share a wire name. */
  lemma CapabilityNamesDistinct()
    ensures DistinctNames(CapabilityNames)
  {
    forall i | 0 <= i < |CapabilityNames|
      ensures forall j :: i < j < |CapabilityNames| ==> CapabilityNames[i] != CapabilityNames[j]
    {
      if i < 3 { NamesDistinctA(i); }
      else if i < 6 { NamesDistinctB(i); }
      else if i < 9 { NamesDistinctC(i); }
      else if i < 12 { NamesDistinctD(i); }
      else if i < 15 { NamesDistinctE(i); }
      else if i < 18 { NamesDistinctF(i); }
      else if i < 21 { NamesDistinctG(i); }
      else if i < 24 { NamesDistinctH(i); }
      else if i < 27 { NamesDistinctI(i); }
      else if i < 30 { NamesDistinctJ(i); }
      else { NamesDistinctK(i); }
    }
  }

  /** The misspelt name clashes with no other flag either. */
  lemma CapabilityNamesAsWrittenDistinct()
    ensures DistinctNames(CapabilityNamesAsWritten)
  {
    CapabilityNamesDistinct();
    var typo := "supportsModulesRequeststst";
    assert forall j :: 0 <= j < |CapabilityNames| ==> CapabilityNames[j] != typo;
  }

  /** decode(encode(c)) == c. */
  lemma CapabilitiesRoundTrip(c: Capabilities)
    ensures DecodeCapabilities(EncodeCapabilities(c)) == Ok(c)
  {
    CapabilityNamesDistinct();
    FlagsRoundTrip(CapabilityNames, c);
  }

  /** With the field name as written, the codec still reads back what it
      writes: the misspelt name is lost only to peers using the protocol's. */
  lemma CapabilitiesAsWrittenRoundTrip(c: Capabilities)
    ensures DecodeCapabilitiesAsWritten(EncodeCapabilitiesAsWritten(c)) == Ok(c)
  {
    CapabilityNamesAsWrittenDistinct();
    FlagsRoundTrip(CapabilityNamesAsWritten, c);
  }

  /** The encoding holds `name: true` for each set flag and nothing else. */
  lemma EncodeCapabilitiesMeaning(c: Capabilities)
    ensures forall i :: 0 <= i < FlagCount ==>
      Get(EncodeCapabilities(c).fields, CapabilityNames[i]) == if c[i] then Some(JBool(true)) else None
    ensures forall k :: k !in CapabilityNames ==> Get(EncodeCapabilities(c).fields, k) == None
  {
    CapabilityNamesDistinct();
    forall i | 0 <= i < FlagCount
      ensures Get(EncodeCapabilities(c).fields, CapabilityNames[i]) == if c[i] then Some(JBool(true)) else None
    {
      GetEncodeFlags(CapabilityNames, c, i);
    }
    forall k | k !in CapabilityNames
      ensures Get(EncodeCapabilities(c).fields, k) == None
    {
      GetEncodeFlagsUnlisted(CapabilityNames, c, k);
    }
  }

  /** Capabilities decode exactly from an object whose every flag is absent
      or a boolean, and a flag is set exactly when the object holds
      `name: true`. */
  lemma DecodeCapabilitiesMeaning(j: Json)
    ensures DecodeCapabilities(j).Ok? <==> j.JObject? && forall i :: 0 <= i < FlagCount ==>
      Get(j.fields, CapabilityNames[i]).None? || Get(j.fields, CapabilityNames[i]).value.JBool?
    ensures DecodeCapabilities(j).Ok? ==> forall i :: 0 <= i < FlagCount ==>
      (DecodeCapabilities(j).value[i] <==> Get(j.fields, CapabilityNames[i]) == Some(JBool(true)))
  {
    if j.JObject? {
      DecodeFlagsMeaning(CapabilityNames, j.fields);
    }
  }

  /** `Capabilities::default()` encodes to an empty object. */
  lemma DefaultCapabilitiesEncodeEmpty()
    ensures EncodeCapabilities(DefaultCapabilities) == JObject([])
  {
    NoFlagsNoMembers(CapabilityNames, DefaultCapabilities);
  }

  /** An object naming no flag decodes to `Capabilities::default()`. */
  lemma {:induction false} NoMembersNoFlags(names: seq<string>, fields: seq<Member>)
    requires forall i :: 0 <= i < |names| ==> Get(fields, names[i]).None?
    ensures DecodeFlags(names, fields) == Ok(seq(|names|, _ => false))
  {
    DecodeFlagsMeaning(names, fields);
    var r := DecodeFlags(names, fields);
    assert r.Ok?;
    assert r.value == seq(|names|, _ => false);
  }

  /** Every flag is false when absent: the empty object decodes to
      `Capabilities::default()`. */
  lemma EmptyObjectDecodesDefault()
    ensures DecodeCapabilities(JObject([])) == Ok(DefaultCapabilities)
  {
    NoMembersNoFlags(CapabilityNames, []);
  }

  /** The object that sets exactly the flags at positions `listed` to true. */
  function ListedFlags(names: seq<string>, listed: seq<nat>): (r: seq<Member>)
    requires forall k :: 0 <= k < |listed| ==> listed[k] < |names|
    ensures |r| == |listed|
  {
    if |listed| == 0 then []
    else [Member(names[listed[0]], JBool(true))] + ListedFlags(names, listed[1..])
  }

  lemma {:induction false} GetListedFlags(names: seq<string>, listed: seq<nat>, i: nat)
    requires DistinctNames(names)
    requires forall k :: 0 <= k < |listed| ==> listed[k] < |names|
    requires i < |names|
    ensures Get(ListedFlags(names, listed), names[i]) == if i in listed then Some(JBool(true)) else None
  {
    if |listed| > 0 {
      var r := ListedFlags(names, listed);
      assert r[1..] == ListedFlags(names, listed[1..]);
      GetListedFlags(names, listed[1..], i);
      assert i in listed <==> i == listed[0] || i in listed[1..];
    }
  }

  /** `listed` with every index lowered by one: the same flags counted from
      the second name of the table. */
  ghost function Lowered(listed: seq<nat>): (r: seq<nat>)
    requires forall k :: 0 <= k < |listed| ==> listed[k] >= 1
    ensures |r| == |listed| && forall k :: 0 <= k < |listed| ==> r[k] + 1 == listed[k]
  {
    seq(|listed|, k requires 0 <= k < |listed| => listed[k] - 1)
  }

  lemma {:induction false} ListedFlagsLowered(names: seq<string>, listed: seq<nat>)
    requires |names| > 0
    requires forall k :: 0 <= k < |listed| ==> 1 <= listed[k] < |names|
    ensures ListedFlags(names[1..], Lowered(listed)) == ListedFlags(names, listed)
  {
    if |listed| > 0 {
      assert Lowered(listed)[1..] == Lowered(listed[1..]);
      ListedFlagsLowered(names, listed[1..]);
    }
  }

  /** `listed` is strictly increasing. */
  ghost predicate Increasing(listed: seq<nat>) {
    forall a, b :: 0 <= a < b < |listed| ==> listed[a] < listed[b]
  }

  /** The flags set are exactly those at the indexes in `listed`. */
  ghost predicate SetAt(flags: seq<bool>, listed: seq<nat>) {
    forall i :: 0 <= i < |flags| ==> (flags[i] <==> i in listed)
  }

  /** Past the first flag, the indexes still to be listed are all at least
      one, and lowered by one they list the remaining flags. */
  lemma ListedPastFirst(flags: seq<bool>, listed: seq<nat>)
    requires |flags| > 0 && Increasing(listed) && SetAt(flags, listed)
    requires forall k :: 0 <= k < |listed| ==> listed[k] < |flags|
    ensures flags[0] ==> |listed| > 0 && listed[0] == 0
    ensures var rest := if flags[0] then listed[1..] else listed;
      && (forall k :: 0 <= k < |rest| ==> 1 <= rest[k] < |flags|)
      && Increasing(rest)
      && (forall i :: 1 <= i < |flags| ==> (flags[i] <==> i in rest))
  {
    if flags[0] {
      forall m | 0 <= m < |listed|
        ensures listed[0] <= listed[m]
      {
        if m > 0 { assert listed[0] < listed[m]; }
      }
      var k :| 0 <= k < |listed| && listed[k] == 0;
      assert listed[0] <= listed[k];
      forall m | 1 <= m < |listed|
        ensures listed[m] >= 1
      {
        assert listed[0] < listed[m];
      }
      forall i | 1 <= i < |flags|
        ensures flags[i] <==> i in listed[1..]
      {
        if i in listed {
          var m :| 0 <= m < |listed| && listed[m] == i;
          assert m != 0;
          assert listed[1..][m - 1] == i;
        }
      }
    } else {
      assert 0 !in listed;
      forall m | 0 <= m < |listed|
        ensures listed[m] >= 1
      {
        assert listed[m] in listed;
      }
    }
  }

  lemma LoweredListsNext(flags: seq<bool>, rest: seq<nat>)
    requires |flags| > 0
    requires forall k :: 0 <= k < |rest| ==> 1 <= rest[k] < |flags|
    requires Increasing(rest)
    requires forall i :: 1 <= i < |flags| ==> (flags[i] <==> i in rest)
    ensures forall k :: 0 <= k < |Lowered(rest)| ==> Lowered(rest)[k] < |flags| - 1
    ensures Increasing(Lowered(rest))
    ensures SetAt(flags[1..], Lowered(rest))
  {
    var lowered := Lowered(rest);
    forall i | 0 <= i < |flags| - 1
      ensures flags[1..][i] <==> i in lowered
    {
      if i in lowered {
        var k :| 0 <= k < |lowered| && lowered[k] == i;
        assert rest[k] == i + 1;
      }
      assert flags[1..][i] == flags[i + 1];
      if i + 1 in rest {
        var k :| 0 <= k < |rest| && rest[k] == i + 1;
        assert lowered[k] == i;
      }
    }
    forall a, b | 0 <= a < b < |lowered|
      ensures lowered[a] < lowered[b]
    {
      assert rest[a] < rest[b];
    }
  }

  /** Encoding a record whose set flags are those at the strictly increasing
      indexes `listed` writes exactly `name: true` for each of them, in table
      order. */
  lemma {:induction false} EncodeListedFlags(names: seq<string>, flags: seq<bool>, listed: seq<nat>)
    requires |flags| == |names|
    requires forall k :: 0 <= k < |listed| ==> listed[k] < |names|
    requires Increasing(listed) && SetAt(flags, listed)
    ensures EncodeFlags(names, flags) == ListedFlags(names, listed)
    decreases |names|
  {
    if |names| > 0 {
      ListedPastFirst(flags, listed);
      var rest := if flags[0] then listed[1..] else listed;
      LoweredListsNext(flags, rest);
      EncodeListedFlags(names[1..], flags[1..], Lowered(rest));
      ListedFlagsLowered(names, rest);
    }
  }

  /** Decoding an object that lists some flags as true sets exactly those. */
  lemma DecodeListedFlags(names: seq<string>, listed: seq<nat>)
    requires DistinctNames(names)
    requires forall k :: 0 <= k < |listed| ==> listed[k] < |names|
    ensures DecodeFlags(names, ListedFlags(names, listed)) == Ok(seq(|names|, i => i in listed))
  {
    var fields := ListedFlags(names, listed);
    forall i | 0 <= i < |names|
      ensures Get(fields, names[i]) == if i in listed then Some(JBool(true)) else None
    {
      GetListedFlags(names, listed, i);
    }
    DecodeFlagsMeaning(names, fields);
    var r := DecodeFlags(names, fields);
    assert r.Ok?;
    assert r.value == seq(|names|, i => i in listed);
  }

  /** The object a client sends to announce `supportsModulesRequest`, as the
      protocol spells it. */
  lemma ModulesRequestObject()
    ensures ListedFlags(CapabilityNames, [11]) == [Member("supportsModulesRequest", JBool(true))]
  {
  }

  /** The finding at `supports_modules_requeststst`: with the name as written,
      a client's `supportsModulesRequest: true` is not recognised and the
      flag stays false. */
  lemma ModulesRequestFlagLostAsWritten()
    ensures DecodeCapabilitiesAsWritten(JObject(ListedFlags(CapabilityNames, [11]))) == Ok(DefaultCapabilities)
  {
    var fields := ListedFlags(CapabilityNames, [11]);
    CapabilityNamesDistinct();
    forall i | 0 <= i < FlagCount
      ensures Get(fields, CapabilityNamesAsWritten[i]).None?
    {
      if i != 11 {
        GetListedFlags(CapabilityNames, [11], i);
      } else {
        ModulesRequestObject();
      }
    }
    NoMembersNoFlags(CapabilityNamesAsWritten, fields);
  }

  /** With the protocol's spelling the same object sets that flag alone. */
  lemma ModulesRequestFlagSet()
    ensures DecodeCapabilities(JObject(ListedFlags(CapabilityNames, [11]))) == Ok(seq(FlagCount, i => i in [11]))
  {
    CapabilityNamesDistinct();
    DecodeListedFlags(CapabilityNames, [11]);
  }

  /** The initialize response of the protocol tests: an object setting six
      flags by name. */
  lemma TestResponseObject()
    ensures ListedFlags(CapabilityNames, [0, 1, 2, 3, 24, 31]) == [
      Member("supportsConfigurationDoneRequest", JBool(true)),
      Member("supportsFunctionBreakpoints", JBool(true)),
      Member("supportsConditionalBreakpoints", JBool(true)),
      Member("supportsHitConditionalBreakpoints", JBool(true)),
      Member("supportsDataBreakpoints", JBool(true)),
      Member("supportsInstructionBreakpoints", JBool(true))]
  {
  }

  /** A partial object decodes to exactly the flags it lists set true and
      every other flag false. */
  lemma PartialObjectDecodesListedFlags()
    ensures DecodeCapabilities(JObject(ListedFlags(CapabilityNames, [0, 1, 2, 3, 24, 31])))
      == Ok(seq(FlagCount, i => i in [0, 1, 2, 3, 24, 31]))
  {
    CapabilityNamesDistinct();
    DecodeListedFlags(CapabilityNames, [0, 1, 2, 3, 24, 31]);
  }

  /** The capabilities of the protocol tests' initialize response encode to
      the six flags they set, by name and in declaration order. */
  lemma TestResponseCapabilities()
    ensures EncodeCapabilities(seq(FlagCount, i => i in [0, 1, 2, 3, 24, 31])) == JObject([
      Member("supportsConfigurationDoneRequest", JBool(true)),
      Member("supportsFunctionBreakpoints", JBool(true)),
      Member("supportsConditionalBreakpoints", JBool(true)),
      Member("supportsHitConditionalBreakpoints", JBool(true)),
      Member("supportsDataBreakpoints", JBool(true)),
      Member("supportsInstructionBreakpoints", JBool(true))])
  {
    var listed: seq<nat> := [0, 1, 2, 3, 24, 31];
    var flags := seq(FlagCount, i => i in listed);
    assert Increasing(listed);
    EncodeListedFlags(CapabilityNames, flags, listed);
    TestResponseObject();
  }
}
