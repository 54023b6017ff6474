/** JSON documents as the tools receive them, and the one decoding the
    tools ask of `encoding/json`: filling a struct whose fields are all Go
    `string`s. */
module Json {
  import opened Results

  datatype Value =
    | Null
    | Bool(b: bool)
    | Number(literal: string)
    | String(text: string)
    | Array(items: seq<Value>)
    | Object(members: map<string, Value>)

  /** A raw JSON document, represented by what a JSON parser makes of it:
      a syntax error with its message, or the value it denotes. */
  datatype Raw = Malformed(reason: string) | WellFormed(value: Value)

  /** The word `encoding/json` uses for a value's kind in its messages. */
  function KindName(v: Value): string {
    match v
    case Null => "null"
    case Bool(_) => "bool"
    case Number(_) => "number"
    case String(_) => "string"
    case Array(_) => "array"
    case Object(_) => "object"
  }

  /** A member may fill a Go `string` field: a JSON string, or `null`, which
      leaves the field as it was. */
  predicate FitsString(v: Value) { v.String? || v.Null? }

  /** The text a `string` field named `key` receives from the members of an
      object: the member's string, or "" when the member is absent or null. */
  function MemberText(members: map<string, Value>, key: string): string {
    if key in members && members[key].String? then members[key].text else ""
  }

  /** A Go struct type as `encoding/json` names it in its errors: the full
      type (`tools.ReadInput`, or the whole `struct { ... }` of an anonymous
      struct) for a document of the wrong kind, and the bare type name
      (`ReadInput`, or "" for an anonymous struct) for a field of the wrong
      kind. */
  datatype StructType = StructType(typeName: string, structName: string)

  /** `json.Unmarshal` of `raw` into a struct of type `typ` whose string
      fields carry the JSON names `keys`, in declaration order: the decoded
      field values, in the same order, or the decoding error. A top-level
      `null` leaves every field empty; unknown members are ignored. */
  function DecodeStrings(raw: Raw, typ: StructType, keys: seq<string>): (r: Result<seq<string>>)
    ensures r.Ok? ==> |r.value| == |keys|
  {
    match raw
    case Malformed(reason) => Err(reason)
    case WellFormed(v) =>
      match v
      case Null => Ok(seq(|keys|, _ => ""))
      case Object(members) => DecodeMembers(members, typ, keys)
      case _ => Err("json: cannot unmarshal " + KindName(v) + " into Go value of type " + typ.typeName)
  }

  /** The message for member `key` holding `v`, which cannot fill a string
      field. */
  function FieldError(v: Value, typ: StructType, key: string): string {
    "json: cannot unmarshal " + KindName(v) + " into Go struct field " + typ.structName + "." + key + " of type string"
  }

  function DecodeMembers(members: map<string, Value>, typ: StructType, keys: seq<string>): (r: Result<seq<string>>)
    ensures r.Ok? ==> |r.value| == |keys|
    decreases |keys|
  {
    if keys == [] then Ok([])
    else
      var key := keys[0];
      if key in members && !FitsString(members[key]) then
        Err(FieldError(members[key], typ, key))
      else
        match DecodeMembers(members, typ, keys[1..])
        case Err(e) => Err(e)
        case Ok(rest) => Ok([MemberText(members, key)] + rest)
  }

  /** The document can fill the struct: it parses, and it is `null` or an
      object whose members named by `keys` are strings or null. */
  predicate Decodable(raw: Raw, keys: seq<string>) {
    && raw.WellFormed?
    && (raw.value.Null? ||
        (raw.value.Object? &&
         forall i :: 0 <= i < |keys| && keys[i] in raw.value.members ==> FitsString(raw.value.members[keys[i]])))
  }

  /** The text field `key` receives from the document. */
  function FieldText(raw: Raw, key: string): string {
    if raw.WellFormed? && raw.value.Object? then MemberText(raw.value.members, key) else ""
  }

  lemma {:induction false} DecodeMembersSpec(members: map<string, Value>, typ: StructType, keys: seq<string>)
    ensures DecodeMembers(members, typ, keys).Ok? <==>
            forall i :: 0 <= i < |keys| && keys[i] in members ==> FitsString(members[keys[i]])
    ensures DecodeMembers(members, typ, keys).Ok? ==>
            forall i :: 0 <= i < |keys| ==> DecodeMembers(members, typ, keys).value[i] == MemberText(members, keys[i])
    decreases |keys|
  {
    if keys != [] {
      DecodeMembersSpec(members, typ, keys[1..]);
      assert forall i :: 1 <= i < |keys| ==> keys[i] == keys[1..][i - 1];
    }
  }

  /** Decoding succeeds exactly when the document is decodable, and then
      each field holds the text of its member; a syntax error is reported
      with the parser's message. */
  lemma DecodeStringsSpec(raw: Raw, typ: StructType, keys: seq<string>)
    ensures DecodeStrings(raw, typ, keys).Ok? <==> Decodable(raw, keys)
    ensures DecodeStrings(raw, typ, keys).Ok? ==>
            forall i :: 0 <= i < |keys| ==> DecodeStrings(raw, typ, keys).value[i] == FieldText(raw, keys[i])
    ensures raw.Malformed? ==> DecodeStrings(raw, typ, keys) == Err(raw.reason)
  {
    if raw.WellFormed? && raw.value.Object? {
      DecodeMembersSpec(raw.value.members, typ, keys);
    }
  }

  /** The first member, in field order, that cannot fill its string field
      decides the error. */
  lemma {:induction false} FirstBadField(members: map<string, Value>, typ: StructType, keys: seq<string>, i: nat)
    requires i < |keys|
    requires forall j :: 0 <= j < i ==> keys[j] !in members || FitsString(members[keys[j]])
    requires keys[i] in members && !FitsString(members[keys[i]])
    ensures DecodeMembers(members, typ, keys) == Err(FieldError(members[keys[i]], typ, keys[i]))
    decreases i
  {
    if i > 0 {
      assert forall j :: 0 <= j < i - 1 ==> keys[1..][j] == keys[j + 1];
      FirstBadField(members, typ, keys[1..], i - 1);
    }
  }
}
