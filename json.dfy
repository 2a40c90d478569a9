/**
 * JSON value trees (the value forms of section 3 of RFC 8259) as the codec
 * sees them, the decoding errors it reports, and the field policy that every
 * payload record of the protocol follows.
 *
 * Numbers are integers only; an object is an ordered list of members, so the
 * order in which an encoder emits its fields is observable.
 */
module Json {
  import opened Utils

  datatype Option<+T> = None | Some(value: T)

  /** The error cases a decoder can report (serde's `missing_field`,
      `invalid_type`/`invalid_value` and `unknown_variant`). */
  datatype DecodeError =
    | MissingField(name: string)
    | InvalidType
    | UnknownVariant(tag: string)

  /** A decoding result; failure-compatible, so decoders can use `:-`. */
  datatype Result<+T> = Ok(value: T) | Err(error: DecodeError) {
    predicate IsFailure() { Err? }

    function PropagateFailure<U>(): Result<U>
      requires Err?
    {
      Err(error)
    }

    function Extract(): T
      requires Ok?
    {
      value
    }
  }

  datatype Json =
    | JNull
    | JBool(b: bool)
    | JInt(n: int)
    | JString(s: string)
    | JArray(items: seq<Json>)
    | JObject(fields: seq<Member>)

  datatype Member = Member(key: string, value: Json)

  /** Rust's fixed-width integers, as the ranges a decoded number must lie in. */
  type u8 = x: int | 0 <= x < 0x100
  type i32 = x: int | -0x8000_0000 <= x < 0x8000_0000
  type u64 = x: int | 0 <= x < 0x1_0000_0000_0000_0000

  /** The encodings of scalars, as function values for the field policy. */
  function JStr(s: string): Json {
    JString(s)
  }

  function JBoolean(b: bool): Json {
    JBool(b)
  }

  function EncodeI32(n: i32): Json {
    JInt(n)
  }

  function EncodeU8(n: u8): Json {
    JInt(n)
  }

  function EncodeU64(n: u64): Json {
    JInt(n)
  }

  /** The keys of an object, in the order its members appear. */
  function Keys(fields: seq<Member>): (r: seq<string>)
    ensures |r| == |fields|
    ensures forall i :: 0 <= i < |fields| ==> r[i] == fields[i].key
  {
    seq(|fields|, i requires 0 <= i < |fields| => fields[i].key)
  }

  /** The value stored under `key`: the first member with that key, if any. */
  function Get(fields: seq<Member>, key: string): Option<Json> {
    if |fields| == 0 then None
    else if fields[0].key == key then Some(fields[0].value)
    else Get(fields[1..], key)
  }

  /** A lookup finds a member of the object, and finds nothing exactly when
      no member carries the key. */
  lemma {:induction false} GetFinds(fields: seq<Member>, key: string)
    ensures Get(fields, key).Some? ==> Member(key, Get(fields, key).value) in fields
    ensures Get(fields, key).None? <==> key !in Keys(fields)
  {
    if |fields| > 0 && fields[0].key != key {
      GetFinds(fields[1..], key);
      assert Keys(fields) == [fields[0].key] + Keys(fields[1..]);
    }
  }

  /** No key occurs twice in the object. */
  ghost predicate DistinctKeys(fields: seq<Member>) {
    forall i, j :: 0 <= i < j < |fields| ==> fields[i].key != fields[j].key
  }

  /** Two objects that bind every key to the same value. */
  ghost predicate SameFields(a: seq<Member>, b: seq<Member>) {
    forall k :: Get(a, k) == Get(b, k)
  }

  /** Encoder building block: the member `key: value` in front of `rest` when
      `value` is present (a field that `skip_serializing_if` did not skip),
      `rest` alone otherwise. */
  function With(key: string, value: Option<Json>, rest: seq<Member>): (r: seq<Member>)
    ensures forall k {:trigger Get(r, k)} :: Get(r, k) == if k == key && value.Some? then value else Get(rest, k)
  {
    if value.Some? then
      GetCons(Member(key, value.value), rest);
      [Member(key, value.value)] + rest
    else rest
  }

  /** Looking a key up in an object that starts with member `m`. */
  lemma GetCons(m: Member, rest: seq<Member>)
    ensures forall k {:trigger Get([m] + rest, k)} :: Get([m] + rest, k) == if k == m.key then Some(m.value) else Get(rest, k)
  {
    assert ([m] + rest)[1..] == rest;
  }

  /** No name occurs twice in a table of keys. */
  ghost predicate DistinctNames(names: seq<string>) {
    forall i, j :: 0 <= i < j < |names| ==> names[i] != names[j]
  }

  /** The position of `name` in a table of variant names: how a derived
      enum decoder recognises a tag. */
  function Lookup(names: seq<string>, name: string): (r: Option<nat>)
    ensures r.Some? ==> r.value < |names| && names[r.value] == name
    ensures r.None? <==> name !in names
  {
    if |names| == 0 then None
    else if names[0] == name then Some(0)
    else match Lookup(names[1..], name)
      case None => None
      case Some(i) => Some(i + 1)
  }

  /** In a table without repeats, each name is found at its own position. */
  lemma {:induction false} LookupDistinct(names: seq<string>, i: nat)
    requires DistinctNames(names) && i < |names|
    ensures Lookup(names, names[i]) == Some(i)
  {
    if i > 0 {
      assert names[0] != names[i];
      assert DistinctNames(names[1..]);
      LookupDistinct(names[1..], i - 1);
      assert names[1..][i - 1] == names[i];
    }
  }

  /** The members of a record whose fields have the wire names `keys`, in
      declaration order, and the encodings `values`: a skipped field (None)
      contributes no member. */
  function Members(keys: seq<string>, values: seq<Option<Json>>): seq<Member>
    requires |keys| == |values|
  {
    if |keys| == 0 then []
    else With(keys[0], values[0], Members(keys[1..], values[1..]))
  }

  /** The record from field `j` on: field `j`, if present, then the record
      from field `j + 1` on. */
  lemma MembersFrom(keys: seq<string>, values: seq<Option<Json>>, j: nat)
    requires |keys| == |values| && j < |keys|
    ensures values[j].None? ==> Members(keys[j..], values[j..]) == Members(keys[j + 1..], values[j + 1..])
    ensures values[j].Some? ==> Members(keys[j..], values[j..]) == [Member(keys[j], values[j].value)] + Members(keys[j + 1..], values[j + 1..])
  {
    assert keys[j..][1..] == keys[j + 1..] && values[j..][1..] == values[j + 1..];
  }

  /** A key that names no field is absent from the record. */
  lemma {:induction false} GetMembersUnlisted(keys: seq<string>, values: seq<Option<Json>>, k: string)
    requires |keys| == |values|
    requires forall i :: 0 <= i < |keys| ==> keys[i] != k
    ensures Get(Members(keys, values), k) == None
  {
    if |keys| > 0 {
      assert forall i :: 0 <= i < |keys[1..]| ==> keys[1..][i] == keys[i + 1];
      GetMembersUnlisted(keys[1..], values[1..], k);
    }
  }

  /** Looking up a field's wire name finds that field's encoding, or nothing
      when it was skipped. */
  lemma {:induction false} GetMembers(keys: seq<string>, values: seq<Option<Json>>, i: nat)
    requires |keys| == |values| && DistinctNames(keys)
    requires i < |keys|
    ensures Get(Members(keys, values), keys[i]) == values[i]
  {
    assert forall j :: 0 <= j < |keys[1..]| ==> keys[1..][j] == keys[j + 1];
    if i == 0 {
      GetMembersUnlisted(keys[1..], values[1..], keys[0]);
    } else {
      assert DistinctNames(keys[1..]);
      GetMembers(keys[1..], values[1..], i - 1);
      assert keys[1..][i - 1] == keys[i] && values[1..][i - 1] == values[i];
    }
  }

  /** When no field is skipped, the record holds one member per field, in
      declaration order. */
  lemma {:induction false} MembersAllPresent(keys: seq<string>, values: seq<Option<Json>>)
    requires |keys| == |values|
    requires forall i :: 0 <= i < |values| ==> values[i].Some?
    ensures |Members(keys, values)| == |keys|
    ensures forall i :: 0 <= i < |keys| ==> Members(keys, values)[i] == Member(keys[i], values[i].value)
  {
    if |keys| > 0 {
      assert forall j :: 0 <= j < |values[1..]| ==> values[1..][j] == values[j + 1];
      MembersAllPresent(keys[1..], values[1..]);
      assert Members(keys, values) == [Member(keys[0], values[0].value)] + Members(keys[1..], values[1..]);
    }
  }

  /** The object without any member named `key`: what a struct hands on to a
      `#[serde(flatten)]` field after consuming `key` itself. */
  function Without(fields: seq<Member>, key: string): (r: seq<Member>)
    ensures Get(r, key) == None
    ensures forall k {:trigger Get(r, k)} :: k != key ==> Get(r, k) == Get(fields, k)
  {
    if |fields| == 0 then []
    else if fields[0].key == key then Without(fields[1..], key)
    else
      var r := [fields[0]] + Without(fields[1..], key);
      assert r[1..] == Without(fields[1..], key);
      r
  }

  /** Removing a key the object does not hold changes nothing. */
  lemma {:induction false} WithoutAbsent(fields: seq<Member>, key: string)
    requires Get(fields, key) == None
    ensures Without(fields, key) == fields
  {
    if |fields| > 0 {
      WithoutAbsent(fields[1..], key);
      assert [fields[0]] + fields[1..] == fields;
    }
  }

  /** Consuming the member an encoder put in front gives back the rest,
      provided the rest does not repeat its key. */
  lemma WithoutWith(key: string, value: Json, rest: seq<Member>)
    requires Get(rest, key) == None
    ensures Without(With(key, Some(value), rest), key) == rest
  {
    assert With(key, Some(value), rest)[1..] == rest;
    WithoutAbsent(rest, key);
  }

  /** Objects that bind every key alike still do so once a key is consumed. */
  lemma WithoutSameFields(a: seq<Member>, b: seq<Member>, key: string)
    requires SameFields(a, b)
    ensures SameFields(Without(a, key), Without(b, key))
  {
    forall k ensures Get(Without(a, key), k) == Get(Without(b, key), k) {
      assert Get(a, k) == Get(b, k);
    }
  }

  /** In an object without repeated keys, looking a key up finds exactly the
      member that carries it. */
  lemma {:induction false} GetFindsMember(fields: seq<Member>, m: Member)
    requires DistinctKeys(fields)
    ensures m in fields <==> Get(fields, m.key) == Some(m.value)
  {
    if |fields| > 0 {
      assert DistinctKeys(fields[1..]) by {
        forall i, j | 0 <= i < j < |fields[1..]|
          ensures fields[1..][i].key != fields[1..][j].key
        {
          assert fields[1..][i] == fields[i + 1] && fields[1..][j] == fields[j + 1];
        }
      }
      GetFindsMember(fields[1..], m);
    }
  }

  /** Reordering the members of an object without repeated keys does not
      change what any key is bound to. */
  lemma PermutedFieldsAgree(a: seq<Member>, b: seq<Member>)
    requires DistinctKeys(a) && DistinctKeys(b)
    requires multiset(a) == multiset(b)
    ensures SameFields(a, b)
  {
    forall k ensures Get(a, k) == Get(b, k) {
      match Get(a, k)
      case Some(v) =>
        GetFindsMember(a, Member(k, v));
        assert Member(k, v) in multiset(b);
        GetFindsMember(b, Member(k, v));
      case None =>
        match Get(b, k)
        case Some(v) =>
          GetFindsMember(b, Member(k, v));
          assert Member(k, v) in multiset(a);
          GetFindsMember(a, Member(k, v));
        case None =>
    }
  }

  // ----- scalars -----

  function DecodeBool(j: Json): (r: Result<bool>)
    ensures r.Ok? <==> j.JBool?
    ensures r.Ok? ==> j == JBool(r.value)
  {
    if j.JBool? then Ok(j.b) else Err(InvalidType)
  }

  function DecodeString(j: Json): (r: Result<string>)
    ensures r.Ok? <==> j.JString?
    ensures r.Ok? ==> j == JString(r.value)
  {
    if j.JString? then Ok(j.s) else Err(InvalidType)
  }

  function DecodeU64(j: Json): (r: Result<u64>)
    ensures r.Ok? <==> j.JInt? && 0 <= j.n < 0x1_0000_0000_0000_0000
    ensures r.Ok? ==> j == JInt(r.value)
  {
    if j.JInt? && 0 <= j.n < 0x1_0000_0000_0000_0000 then Ok(j.n) else Err(InvalidType)
  }

  function DecodeI32(j: Json): (r: Result<i32>)
    ensures r.Ok? <==> j.JInt? && -0x8000_0000 <= j.n < 0x8000_0000
    ensures r.Ok? ==> j == JInt(r.value)
  {
    if j.JInt? && -0x8000_0000 <= j.n < 0x8000_0000 then Ok(j.n) else Err(InvalidType)
  }

  function DecodeU8(j: Json): (r: Result<u8>)
    ensures r.Ok? <==> j.JInt? && 0 <= j.n < 0x100
    ensures r.Ok? ==> j == JInt(r.value)
  {
    if j.JInt? && 0 <= j.n < 0x100 then Ok(j.n) else Err(InvalidType)
  }

  /** A struct decodes only from an object. */
  function DecodeObject(j: Json): (r: Result<seq<Member>>)
    ensures r.Ok? <==> j.JObject?
    ensures r.Ok? ==> j == JObject(r.value)
  {
    if j.JObject? then Ok(j.fields) else Err(InvalidType)
  }

  // ----- sequences (`Vec<T>`) -----

  function EncodeItems<T>(xs: seq<T>, enc: T -> Json): (r: seq<Json>)
    ensures |r| == |xs|
  {
    if |xs| == 0 then [] else [enc(xs[0])] + EncodeItems(xs[1..], enc)
  }

  function DecodeItems<T>(items: seq<Json>, dec: Json -> Result<T>): (r: Result<seq<T>>)
    ensures r.Ok? ==> |r.value| == |items|
    ensures r.Ok? <==> forall i :: 0 <= i < |items| ==> dec(items[i]).Ok?
    ensures r.Ok? ==> forall i :: 0 <= i < |items| ==> dec(items[i]) == Ok(r.value[i])
  {
    if |items| == 0 then Ok([])
    else
      var x :- dec(items[0]);
      var rest :- DecodeItems(items[1..], dec);
      assert forall i :: 1 <= i < |items| ==> items[i] == items[1..][i - 1];
      Ok([x] + rest)
  }

  /** A `Vec<T>` decodes only from an array whose every element decodes. */
  function DecodeArray<T>(j: Json, dec: Json -> Result<T>): (r: Result<seq<T>>)
    ensures r.Ok? <==> j.JArray? && forall i :: 0 <= i < |j.items| ==> dec(j.items[i]).Ok?
    ensures r.Ok? ==> j.JArray? && |r.value| == |j.items|
    ensures r.Ok? ==> forall i :: 0 <= i < |j.items| ==> dec(j.items[i]) == Ok(r.value[i])
  {
    if j.JArray? then DecodeItems(j.items, dec) else Err(InvalidType)
  }

  /** Decoding an encoded sequence element by element gives the sequence back
      whenever it does so for each element. */
  lemma {:induction false} ItemsRoundTrip<T>(xs: seq<T>, enc: T -> Json, dec: Json -> Result<T>)
    requires forall i :: 0 <= i < |xs| ==> dec(enc(xs[i])) == Ok(xs[i])
    ensures DecodeItems(EncodeItems(xs, enc), dec) == Ok(xs)
  {
    if |xs| > 0 {
      assert forall i :: 0 <= i < |xs[1..]| ==> xs[1..][i] == xs[i + 1];
      ItemsRoundTrip(xs[1..], enc, dec);
      assert EncodeItems(xs, enc)[1..] == EncodeItems(xs[1..], enc);
      assert [xs[0]] + xs[1..] == xs;
    }
  }

  // ----- the field policy of payload records -----

  /** A required field: absent, it fails with MissingField(key). */
  function Required<T>(fields: seq<Member>, key: string, dec: Json -> Result<T>): Result<T> {
    match Get(fields, key)
    case None => Err(MissingField(key))
    case Some(v) => dec(v)
  }

  /** An `Option<T>` field: absent or null, it is None. */
  function Optional<T>(fields: seq<Member>, key: string, dec: Json -> Result<T>): (r: Result<Option<T>>)
    ensures r.Ok? ==> (r.value == None <==> Get(fields, key) in {None, Some(JNull)})
    ensures r.Ok? && r.value.Some? ==> Get(fields, key).Some? && dec(Get(fields, key).value) == Ok(r.value.value)
  {
    match Get(fields, key)
    case None => Ok(None)
    case Some(JNull) => Ok(None)
    case Some(v) =>
      var x :- dec(v);
      Ok(Some(x))
  }

  /** A field with `#[serde(default)]`: absent, it takes `default`. */
  function Defaulted<T>(fields: seq<Member>, key: string, dec: Json -> Result<T>, default: T): Result<T> {
    match Get(fields, key)
    case None => Ok(default)
    case Some(v) => dec(v)
  }

  /** An `Option<Value>` field: any JSON passes through, except that null
      reads as None. */
  function OptionalValue(fields: seq<Member>, key: string): Option<Json> {
    match Get(fields, key)
    case None => None
    case Some(JNull) => None
    case Some(v) => Some(v)
  }

  /** The encoding of an `Option<T>` field with `skip_serializing_if =
      "Option::is_none"`. */
  function SkipNone<T>(x: Option<T>, enc: T -> Json): Option<Json> {
    match x
    case None => None
    case Some(v) => Some(enc(v))
  }

  /** The encoding of a defaulted field with `skip_serializing_if =
      "eq_default"`: skipped when it equals its default. */
  function SkipDefault<T(==)>(x: T, default: T, enc: T -> Json): Option<Json> {
    if EqDefault(x, default) then None else Some(enc(x))
  }

  /** The encoding of a `Vec` field with `skip_serializing_if =
      "Vec::is_empty"`. */
  function SkipEmpty<T>(xs: seq<T>, enc: T -> Json): Option<Json> {
    if |xs| == 0 then None else Some(JArray(EncodeItems(xs, enc)))
  }

  /** A fieldless enum decodes from one of its wire strings; any other
      string is an unknown variant. serde's other form for such a value, the
      one-member object `{"<name>": null}`, is an invalid type here. */
  function DecodeVariant<E>(j: Json, parse: string -> Option<E>): Result<E> {
    match j
    case JString(s) =>
      (match parse(s)
       case Some(e) => Ok(e)
       case None => Err(UnknownVariant(s)))
    case _ => Err(InvalidType)
  }

  // ----- each field policy reads back what its encoding wrote -----

  lemma RequiredRoundTrip<T>(fields: seq<Member>, key: string, x: T, enc: T -> Json, dec: Json -> Result<T>)
    requires Get(fields, key) == Some(enc(x)) && dec(enc(x)) == Ok(x)
    ensures Required(fields, key, dec) == Ok(x)
  {
  }

  /** An `Option` field skipped when None, or written as a non-null value,
      reads back as itself. */
  lemma OptionalRoundTrip<T>(fields: seq<Member>, key: string, x: Option<T>, enc: T -> Json, dec: Json -> Result<T>)
    requires Get(fields, key) == SkipNone(x, enc)
    requires x.Some? ==> enc(x.value) != JNull && dec(enc(x.value)) == Ok(x.value)
    ensures Optional(fields, key, dec) == Ok(x)
  {
  }

  /** A defaulted field, whether skipped at its default or always written,
      reads back as itself. */
  lemma DefaultedRoundTrip<T>(fields: seq<Member>, key: string, x: T, default: T, enc: T -> Json, dec: Json -> Result<T>)
    requires Get(fields, key) == SkipDefault(x, default, enc) || Get(fields, key) == Some(enc(x))
    requires dec(enc(x)) == Ok(x)
    ensures Defaulted(fields, key, dec, default) == Ok(x)
  {
  }

  /** The members of an adjacently tagged enum value: the tag, then the
      payload, which a unit variant does not have. */
  function Tagged(tagKey: string, tag: string, contentKey: string, content: Option<Json>): seq<Member> {
    With(tagKey, Some(JString(tag)), With(contentKey, content, []))
  }

  lemma GetTagged(tagKey: string, tag: string, contentKey: string, content: Option<Json>)
    requires tagKey != contentKey
    ensures Get(Tagged(tagKey, tag, contentKey, content), tagKey) == Some(JString(tag))
    ensures Get(Tagged(tagKey, tag, contentKey, content), contentKey) == content
  {
  }

  /** A `Vec` field with `default` and `skip_serializing_if =
      "Vec::is_empty"` reads back what its encoding wrote. */
  lemma {:induction false} DefaultedItemsRoundTrip<T>(fields: seq<Member>, key: string, xs: seq<T>, enc: T -> Json,
                                                      dec: Json -> Result<T>, decItems: Json -> Result<seq<T>>)
    requires Get(fields, key) == SkipEmpty(xs, enc)
    requires forall i :: 0 <= i < |xs| ==> dec(enc(xs[i])) == Ok(xs[i])
    requires forall j :: decItems(j) == DecodeArray(j, dec)
    ensures Defaulted(fields, key, decItems, []) == Ok(xs)
  {
    if |xs| > 0 {
      ItemsRoundTrip(xs, enc, dec);
    }
  }

  /** A payload object that decodes to `x` is read back as `x`. */
  lemma ContentRoundTrip<T>(o: seq<Member>, key: string, fields: seq<Member>, x: T, dec: seq<Member> -> Result<T>)
    requires Get(o, key) == Some(JObject(fields)) && dec(fields) == Ok(x)
    ensures Content(o, key, dec) == Ok(x)
  {
  }

  /** The payload of a newtype or struct variant of an adjacently tagged enum:
      absent, it fails with MissingField(content key); it must be an object. */
  function Content<T>(fields: seq<Member>, key: string, dec: seq<Member> -> Result<T>): Result<T> {
    match Get(fields, key)
    case None => Err(MissingField(key))
    case Some(JObject(o)) => dec(o)
    case Some(_) => Err(InvalidType)
  }
}
