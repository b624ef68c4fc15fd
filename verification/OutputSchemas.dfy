/**
 Validation of a terminal response against the honoured subset of its output
 schema: `type`, `required`, `properties` and `enum`.
 */
module OutputSchemas {
  import opened Words
  import opened CanonicalJson

  datatype Violation =
    | NotJson
    | RootType(expected: string, actual: string)
    | MissingRequired(name: string)
    | PropertyType(name: string, expected: string, actual: string)
    | PropertyEnum(name: string, options: seq<Json>, found: string)

  function TypeName(v: Json): string {
    match v
    case JNull => "null"
    case JBool(_) => "boolean"
    case JNumber(_) => "number"
    case JString(_) => "string"
    case JArray(_) => "array"
    case JObject(_) => "object"
  }

  /** An unknown type name constrains nothing; `integral` is the float test on a number token. */
  predicate MatchesType(v: Json, expected: string, integral: string -> bool) {
    match expected
    case "integer" => v.JNumber? && integral(v.token)
    case _ => expected in TYPE_NAMES ==> TypeName(v) == expected
  }

  const TYPE_NAMES := ["object", "array", "string", "boolean", "null", "number"]

  /** What a JSON decoder can return. */
  type Decoded = v: Json | Decodable(v) witness JNull

  /** A member of an object, when the value is an object that has it. */
  function Member(v: Json, key: string): Option<Json> {
    if v.JObject? && key in v.fields then Some(v.fields[key]) else None
  }

  function SchemaType(schema: Json): Option<string> {
    match Member(schema, "type")
    case Some(JString(t)) => Some(t)
    case _ => None
  }

  function Required(schema: Json): seq<Json> {
    match Member(schema, "required")
    case Some(JArray(names)) => names
    case _ => []
  }

  function Properties(schema: Json): map<string, Json> {
    match Member(schema, "properties")
    case Some(JObject(props)) => props
    case _ => map[]
  }

  function Options(schema: Json): Option<seq<Json>> {
    match Member(schema, "enum")
    case Some(JArray(options)) => Some(options)
    case _ => None
  }

  // ---------------------------------------------------------------------------
  // What a schema asks for
  // ---------------------------------------------------------------------------

  predicate TypeHolds(v: Json, schema: Json, integral: string -> bool) {
    SchemaType(schema).Some? ==> MatchesType(v, SchemaType(schema).value, integral)
  }

  /** Membership is equality of trees: key order is immaterial, numbers compare by token. */
  predicate EnumHolds(v: Json, schema: Json) {
    Options(schema).Some? ==> v in Options(schema).value
  }

  predicate NameHolds(obj: Json, name: Json) {
    name.JString? ==> Member(obj, name.s).Some?
  }

  predicate PropertyTypeHolds(obj: Json, props: map<string, Json>, key: string, integral: string -> bool)
    requires key in props
  {
    Member(obj, key).Some? ==> TypeHolds(Member(obj, key).value, props[key], integral)
  }

  predicate PropertyEnumHolds(obj: Json, props: map<string, Json>, key: string)
    requires key in props
  {
    Member(obj, key).Some? ==> EnumHolds(Member(obj, key).value, props[key])
  }

  ghost predicate RequiredHolds(v: Json, schema: Json) {
    v.JObject? ==> forall name :: name in Required(schema) ==> NameHolds(v, name)
  }

  ghost predicate TypesHold(v: Json, schema: Json, integral: string -> bool) {
    forall key :: key in Properties(schema) ==> PropertyTypeHolds(v, Properties(schema), key, integral)
  }

  ghost predicate EnumsHold(v: Json, schema: Json) {
    forall key :: key in Properties(schema) ==> PropertyEnumHolds(v, Properties(schema), key)
  }

  /** The response satisfies the schema; a schema that does not parse asks for nothing. */
  ghost predicate Conforms(response: Option<Json>, schema: Option<Json>, integral: string -> bool) {
    response.Some? && (schema.Some? ==>
      && TypeHolds(response.value, schema.value, integral)
      && RequiredHolds(response.value, schema.value)
      && TypesHold(response.value, schema.value, integral)
      && EnumsHold(response.value, schema.value))
  }

  /** The first required name, in array order, that the value lacks. */
  ghost predicate LacksFirst(v: Json, names: seq<Json>, name: string) {
    exists i :: 0 <= i < |names| && names[i] == JString(name) && !NameHolds(v, names[i])
                && forall k :: 0 <= k < i ==> NameHolds(v, names[k])
  }

  /** The least property of the wrong type. */
  ghost predicate TypedWrongFirst(v: Json, props: map<string, Json>, name: string, integral: string -> bool) {
    && name in props && !PropertyTypeHolds(v, props, name, integral)
    && forall k :: k in props && KeyLess(k, name) ==> PropertyTypeHolds(v, props, k, integral)
  }

  /** The least property whose value is none of its options. */
  ghost predicate OutsideFirst(v: Json, props: map<string, Json>, name: string) {
    && name in props && !PropertyEnumHolds(v, props, name)
    && forall k :: k in props && KeyLess(k, name) ==> PropertyEnumHolds(v, props, k)
  }

  // ---------------------------------------------------------------------------
  // The checks
  // ---------------------------------------------------------------------------

  /** Compares canonical texts, which decides equality of trees. */
  method IsOption(v: Json, options: seq<Json>) returns (member: bool, text: string)
    requires Decodable(v) && forall i :: 0 <= i < |options| ==> Decodable(options[i])
    ensures member <==> v in options
    ensures text == Print(v)
  {
    text := Canonicalize(v);
    member := false;
    var i := 0;
    while i < |options| && !member
      invariant 0 <= i <= |options|
      invariant member <==> v in options[..i]
    {
      var option := Canonicalize(options[i]);
      CanonicalIdentifies(options[i], v);
      member := option == text;
      i := i + 1;
    }
    if !member {
      assert options[..i] == options;
    }
  }

  /** The first required name, in array order, that the object lacks. */
  method FirstMissing(obj: Json, names: seq<Json>) returns (r: Option<Violation>)
    requires obj.JObject?
    ensures r.None? <==> forall name :: name in names ==> NameHolds(obj, name)
    ensures r.Some? ==> r.value.MissingRequired? && LacksFirst(obj, names, r.value.name)
  {
    for i := 0 to |names|
      invariant forall k :: 0 <= k < i ==> NameHolds(obj, names[k])
    {
      if names[i].JString? && names[i].s !in obj.fields {
        assert !NameHolds(obj, names[i]);
        return Some(MissingRequired(names[i].s));
      }
    }
    return None;
  }

  /** The least property whose value has the wrong type. */
  method FirstWrongType(obj: Json, props: map<string, Json>, keys: seq<string>, integral: string -> bool)
    returns (r: Option<Violation>)
    requires obj.JObject? && SortedFrom(keys, props.Keys)
    ensures r.None? <==> forall key :: key in props ==> PropertyTypeHolds(obj, props, key, integral)
    ensures r.Some? ==>
              && r.value.PropertyType? && TypedWrongFirst(obj, props, r.value.name, integral)
              && SchemaType(props[r.value.name]) == Some(r.value.expected)
              && r.value.actual == TypeName(Member(obj, r.value.name).value)
  {
    assert forall k :: k in keys <==> k in props;
    for i := 0 to |keys|
      invariant forall k :: 0 <= k < i ==> keys[k] in props && PropertyTypeHolds(obj, props, keys[k], integral)
    {
      var key := keys[i];
      assert key in keys;
      if key in obj.fields {
        var expected := SchemaType(props[key]);
        if expected.Some? && !MatchesType(obj.fields[key], expected.value, integral) {
          Before(keys, i);
          return Some(PropertyType(key, expected.value, TypeName(obj.fields[key])));
        }
      }
    }
    return None;
  }

  /** In a sorted listing the smaller keys come first. */
  lemma Before(keys: seq<string>, i: nat)
    requires KeysAscending(keys) && i < |keys|
    ensures forall k :: k in keys && KeyLess(k, keys[i]) ==> k in keys[..i]
  {
    forall k | k in keys && KeyLess(k, keys[i])
      ensures k in keys[..i]
    {
      var j :| 0 <= j < |keys| && keys[j] == k;
      KeyLessTotal(keys[i], k);
      assert j < i;
      assert keys[..i][j] == k;
    }
  }

  ghost predicate DecodableOptions(props: map<string, Json>) {
    forall key :: key in props && Options(props[key]).Some? ==>
      forall i :: 0 <= i < |Options(props[key]).value| ==> Decodable(Options(props[key]).value[i])
  }

  /** The least property whose value is none of its options. */
  method FirstOutsideEnum(obj: Json, props: map<string, Json>, keys: seq<string>)
    returns (r: Option<Violation>)
    requires obj.JObject? && Decodable(obj) && DecodableOptions(props) && SortedFrom(keys, props.Keys)
    ensures r.None? <==> forall key :: key in props ==> PropertyEnumHolds(obj, props, key)
    ensures r.Some? ==>
              && r.value.PropertyEnum? && OutsideFirst(obj, props, r.value.name)
              && Options(props[r.value.name]) == Some(r.value.options)
              && r.value.found == Print(Member(obj, r.value.name).value)
  {
    assert forall k :: k in keys <==> k in props;
    for i := 0 to |keys|
      invariant forall k :: 0 <= k < i ==> keys[k] in props && PropertyEnumHolds(obj, props, keys[k])
    {
      var key := keys[i];
      assert key in keys;
      if key in obj.fields {
        var options := Options(props[key]);
        if options.Some? {
          var member, text := IsOption(obj.fields[key], options.value);
          if !member {
            Before(keys, i);
            return Some(PropertyEnum(key, options.value, text));
          }
        }
      }
    }
    return None;
  }

  /** The checks run in a fixed order: a verdict names the first that fails, and all before it passed. */
  ghost predicate Explains(r: Option<Violation>, response: Option<Json>, schema: Option<Json>,
                           integral: string -> bool) {
    if r.None? then Conforms(response, schema, integral)
    else if r.value.NotJson? then response.None?
    else
      && response.Some? && schema.Some?
      && var v, s := response.value, schema.value;
      match r.value
      case RootType(expected, actual) =>
        !TypeHolds(v, s, integral) && SchemaType(s) == Some(expected) && actual == TypeName(v)
      case MissingRequired(name) =>
        TypeHolds(v, s, integral) && v.JObject? && LacksFirst(v, Required(s), name)
      case PropertyType(name, expected, actual) =>
        && TypeHolds(v, s, integral) && RequiredHolds(v, s)
        && TypedWrongFirst(v, Properties(s), name, integral)
        && SchemaType(Properties(s)[name]) == Some(expected) && actual == TypeName(Member(v, name).value)
      case PropertyEnum(name, options, found) =>
        && TypeHolds(v, s, integral) && RequiredHolds(v, s) && TypesHold(v, s, integral)
        && OutsideFirst(v, Properties(s), name)
        && Options(Properties(s)[name]) == Some(options) && found == Print(Member(v, name).value)
  }

  lemma OptionsDecode(schema: Json)
    requires Decodable(schema)
    ensures DecodableOptions(Properties(schema))
  {
    MemberDecodes(schema, "properties");
    var props := Properties(schema);
    forall key | key in props && Options(props[key]).Some?
      ensures forall i :: 0 <= i < |Options(props[key]).value| ==> Decodable(Options(props[key]).value[i])
    {
      MemberDecodes(Member(schema, "properties").value, key);
      MemberDecodes(props[key], "enum");
    }
  }

  lemma MemberDecodes(v: Json, key: string)
    requires Decodable(v)
    ensures Member(v, key).Some? ==> Decodable(Member(v, key).value)
  {
  }

  /** Accepts exactly the conforming responses, and otherwise reports the first failing check. */
  method ValidateOutput(response: Option<Json>, schema: Option<Json>, integral: string -> bool)
    returns (r: Option<Violation>)
    requires response.Some? ==> Decodable(response.value)
    requires schema.Some? ==> Decodable(schema.value)
    ensures r.None? <==> Conforms(response, schema, integral)
    ensures Explains(r, response, schema, integral)
  {
    if response.None? {
      return Some(NotJson);
    }
    if schema.None? {
      return None;
    }
    var v := response.value;
    var expected := SchemaType(schema.value);
    if expected.Some? && !MatchesType(v, expected.value, integral) {
      return Some(RootType(expected.value, TypeName(v)));
    }
    if v.JObject? {
      r := FirstMissing(v, Required(schema.value));
      if r.Some? { return; }
      var props := Properties(schema.value);
      var keys := SortKeys(props.Keys);
      r := FirstWrongType(v, props, keys, integral);
      if r.Some? { return; }
      OptionsDecode(schema.value);
      r := FirstOutsideEnum(v, props, keys);
    } else {
      r := None;
    }
  }
}
