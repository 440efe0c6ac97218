/** The contract validator: recursion over schema and value together, through references, alternatives,
    arrays and objects, in a strict mode for requests and a tolerant one for responses. */
module SchemaValidator {
  import opened Basics
  import opened Json

  datatype Mode = Request | Response

  /** Pattern, format and number comparison are the only parts left to the runtime. */
  datatype Runtime = Runtime(matches: (string, string) -> bool, validFormat: (string, string) -> bool)

  const REF_PREFIX := "#/components/schemas/"

  // ---- references reached without consuming any of the value ---

  /** The component a schema refers to directly; a name without a component counts as none. */
  function RefName(schema: Json): Option<string> {
    match Field(schema, "$ref")
    case Some(JStr(ref)) => if REF_PREFIX <= ref then Some(ref[|REF_PREFIX|..]) else None
    case _ => None
  }

  predicate HasRef(schema: Json) {
    Field(schema, "$ref").Some? && Field(schema, "$ref").value.JStr?
  }

  function Alternatives(schema: Json): Option<seq<Json>> {
    match Field(schema, "anyOf")
    case Some(JArr(items)) => Some(items)
    case _ => None
  }

  lemma FieldSmaller(schema: Json, key: string)
    ensures Field(schema, key).Some? ==> Field(schema, key).value < schema
  {
  }

  /** An upper bound on the rank of every component the schema can jump to before it looks inside the value. */
  function RefRank(schema: Json, rank: map<string, nat>): nat
    decreases schema
  {
    if HasRef(schema) then
      if RefName(schema).Some? && RefName(schema).value in rank then rank[RefName(schema).value] + 1 else 0
    else
      match Alternatives(schema)
      case None => 0
      case Some(items) =>
        FieldSmaller(schema, "anyOf");
        ItemsRank(items, rank)
  }

  function ItemsRank(items: seq<Json>, rank: map<string, nat>): nat
    decreases items
  {
    if items == [] then 0
    else
      var first, rest := RefRank(items[0], rank), ItemsRank(items[1..], rank);
      if first < rest then rest else first
  }

  lemma {:induction false} ItemRank(items: seq<Json>, rank: map<string, nat>, i: nat)
    requires i < |items|
    ensures RefRank(items[i], rank) <= ItemsRank(items, rank)
  {
    if i > 0 {
      ItemRank(items[1..], rank, i - 1);
    }
  }

  lemma AlternativeSmaller(schema: Json, i: nat)
    requires Alternatives(schema).Some? && i < |Alternatives(schema).value|
    ensures Alternatives(schema).value[i] < schema
  {
    var list := Field(schema, "anyOf").value;
    assert list.items[i] < list;
    assert list < schema;
  }

  /** Component references are acyclic along steps that stay at the same value. */
  ghost predicate Acyclic(components: map<string, Json>, rank: map<string, nat>) {
    rank.Keys == components.Keys && forall name :: name in components ==> RefRank(components[name], rank) <= rank[name]
  }

  // ---- leaves ---

  /** Object.is on a parsed value and a literal of the schema: objects and arrays are never identical. */
  predicate Identical(a: Json, b: Json) {
    !a.JArr? && !a.JObj? && a == b
  }

  function Real(value: Json): Option<real> {
    match value
    case JNum(n) => Some(n as real)
    case JFrac(r) => Some(r)
    case _ => None
  }

  predicate WithinBounds(schema: Json, value: real) {
    && (Field(schema, "minimum").Some? && Real(Field(schema, "minimum").value).Some? ==>
        value >= Real(Field(schema, "minimum").value).value)
    && (Field(schema, "maximum").Some? && Real(Field(schema, "maximum").value).Some? ==>
        value <= Real(Field(schema, "maximum").value).value)
  }

  predicate StringAccepts(schema: Json, s: string, runtime: Runtime) {
    && (Field(schema, "minLength").Some? && Real(Field(schema, "minLength").value).Some? ==>
        |s| as real >= Real(Field(schema, "minLength").value).value)
    && (Field(schema, "maxLength").Some? && Real(Field(schema, "maxLength").value).Some? ==>
        |s| as real <= Real(Field(schema, "maxLength").value).value)
    && (match Field(schema, "pattern") case Some(JStr(p)) => runtime.matches(p, s) case _ => true)
    && (match Field(schema, "format") case Some(JStr(f)) => runtime.validFormat(f, s) case _ => true)
  }

  predicate LiteralsAccept(schema: Json, value: Json) {
    && (Field(schema, "const").Some? ==> Identical(value, Field(schema, "const").value))
    && (match Field(schema, "enum")
        case Some(JArr(items)) => exists i | 0 <= i < |items| :: Identical(items[i], value)
        case _ => true)
  }

  /** Names every object inherits: they read as present, and as properties they read as unusable schemas. */
  predicate Inherited(key: string) {
    || key == "constructor" || key == "toString" || key == "valueOf" || key == "hasOwnProperty" ||
        key == "isPrototypeOf"
    || key == "propertyIsEnumerable" || key == "toLocaleString" || key == "__proto__" || key == "__defineGetter__"
    || key == "__defineSetter__" || key == "__lookupGetter__" || key == "__lookupSetter__"
  }

  datatype Kind = Items | Fields | Scalar(name: string) | Untyped

  function KindOf(schema: Json): Kind {
    match Field(schema, "type")
    case Some(JStr(name)) => if name == "array" then Items else if name == "object" then Fields else Scalar(name)
    case _ => Untyped
  }

  /** The types whose values hold no further values; a type that is none of the known ones accepts nothing. */
  predicate ScalarAccepts(schema: Json, kind: string, value: Json, runtime: Runtime) {
    if kind == "null" then value.JNull?
    else if kind == "boolean" then value.JBool?
    else if kind == "integer" then value.JNum? && SafeInteger(value.n) && WithinBounds(schema, value.n as real)
    else if kind == "number" then Real(value).Some? && WithinBounds(schema, Real(value).value)
    else kind == "string" && value.JStr? && StringAccepts(schema, value.s, runtime)
  }

  function Properties(schema: Json): map<string, Json> {
    match Field(schema, "properties")
    case Some(JObj(fields)) => fields
    case _ => map[]
  }

  predicate RequiredPresent(schema: Json, fields: map<string, Json>) {
    match Field(schema, "required")
    case Some(JArr(items)) => forall i | 0 <= i < |items| :: items[i].JStr? && (items[i].s in fields || Inherited(items[i].s))
    case _ => true
  }

  predicate Truthy(value: Json) {
    match value
    case JNull => false
    case JBool(b) => b
    case JNum(n) => n != 0
    case JFrac(_) => true
    case JStr(s) => s != ""
    case _ => true
  }

  /** What applies to a property: a schema, a refusal, or nothing at all. */
  datatype Rule = Check(schema: Json) | Refuse | Ignore

  function RuleFor(schema: Json, key: string, mode: Mode): Rule {
    var properties, additional := Properties(schema), Field(schema, "additionalProperties");
    if key in properties && Truthy(properties[key]) then Check(properties[key])
    else if key !in properties && Inherited(key) then Refuse
    else if additional.Some? && (additional.value.JObj? || additional.value.JArr?) then Check(additional.value)
    else if mode.Request? && additional == Some(JBool(false)) then Refuse
    else Ignore
  }

  // ---- validation ---

  /** `rank` only witnesses that the references are acyclic; it does not influence the answer. */
  predicate Validate(components: map<string, Json>, ghost rank: map<string, nat>, runtime: Runtime, schema: Json,
      value: Json, mode: Mode)
    requires Acyclic(components, rank)
    decreases value, RefRank(schema, rank), schema, 2
  {
    if !schema.JObj? then false
    else if HasRef(schema) then
      RefName(schema).Some? && RefName(schema).value in components &&
      Validate(components, rank, runtime, components[RefName(schema).value], value, mode)
    else if Alternatives(schema).Some? then
      var items := Alternatives(schema).value;
      exists i | 0 <= i < |items| ::
        AlternativeSmaller(schema, i);
        ItemRank(items, rank, i);
        Validate(components, rank, runtime, items[i], value, mode)
    else
      LiteralsAccept(schema, value) && TypeAccepts(components, rank, runtime, schema, value, mode)
  }

  predicate TypeAccepts(components: map<string, Json>, ghost rank: map<string, nat>, runtime: Runtime, schema: Json,
      value: Json, mode: Mode)
    requires Acyclic(components, rank)
    decreases value, 0, schema, 1
  {
    match KindOf(schema)
    case Items => value.JArr? && ItemsAccept(components, rank, runtime, schema, value, mode)
    case Fields => value.JObj? && ObjectAccepts(components, rank, runtime, schema, value, mode)
    case Scalar(name) => ScalarAccepts(schema, name, value, runtime)
    case Untyped => false
  }

  predicate ItemsAccept(components: map<string, Json>, ghost rank: map<string, nat>, runtime: Runtime, schema: Json,
      value: Json, mode: Mode)
    requires Acyclic(components, rank) && value.JArr?
    decreases value, 0, schema, 0
  {
    && Field(schema, "items").Some? && Truthy(Field(schema, "items").value)
    && (forall i | 0 <= i < |value.items| :: Validate(components, rank, runtime, Field(schema, "items").value,
        value.items[i], mode))
  }

  predicate ObjectAccepts(components: map<string, Json>, ghost rank: map<string, nat>, runtime: Runtime, schema: Json,
      value: Json, mode: Mode)
    requires Acyclic(components, rank) && value.JObj?
    decreases value, 0, schema, 0
  {
    && RequiredPresent(schema, value.fields)
    && (forall key | key in value.fields ::
          match RuleFor(schema, key, mode)
          case Check(property) => Validate(components, rank, runtime, property, value.fields[key], mode)
          case Refuse => false
          case Ignore => true)
  }

  // ---- what acceptance says about the value ---

  /** The schema is an object with this keyword. */
  predicate Says(schema: Json, key: string, value: Json) {
    schema.JObj? && key in schema.fields && schema.fields[key] == value
  }

  /** The schema has no reference and no alternatives, so its own keywords decide. */
  predicate Plain(schema: Json) {
    && schema.JObj?
    && ("$ref" in schema.fields ==> !schema.fields["$ref"].JStr?)
    && ("anyOf" in schema.fields ==> !schema.fields["anyOf"].JArr?)
  }

  /** A reference accepts what the component it names accepts, and nothing without one. */
  lemma ReferenceMeans(components: map<string, Json>, rank: map<string, nat>, runtime: Runtime, schema: Json,
      name: string, value: Json, mode: Mode)
    requires Acyclic(components, rank) && Says(schema, "$ref", JStr("#/components/schemas/" + name))
    ensures Validate(components, rank, runtime, schema, value, mode) <==>
        name in components && Validate(components, rank, runtime, components[name], value, mode)
  {
    assert ("#/components/schemas/" + name)[|REF_PREFIX|..] == name;
    assert RefName(schema) == Some(name);
    hide TypeAccepts, LiteralsAccept;
  }

  /** Alternatives accept what any one of them accepts. */
  lemma AlternativesMean(components: map<string, Json>, rank: map<string, nat>, runtime: Runtime, schema: Json,
      items: seq<Json>, value: Json, mode: Mode)
    requires Acyclic(components, rank) && Says(schema, "anyOf", JArr(items)) && !HasRef(schema)
    ensures Validate(components, rank, runtime, schema, value, mode) <==>
        exists i :: 0 <= i < |items| && Validate(components, rank, runtime, items[i], value, mode)
  {
    hide TypeAccepts, LiteralsAccept;
  }

  /** A reference to anywhere else accepts nothing. */
  lemma ForeignReferenceMeans(components: map<string, Json>, rank: map<string, nat>, runtime: Runtime, schema: Json,
      text: string, value: Json, mode: Mode)
    requires Acyclic(components, rank) && Says(schema, "$ref", JStr(text))
    requires forall name: string :: text != "#/components/schemas/" + name
    ensures !Validate(components, rank, runtime, schema, value, mode)
  {
    PrefixSplit(text);
  }

  lemma PrefixSplit(text: string)
    ensures REF_PREFIX <= text ==> text == REF_PREFIX + text[|REF_PREFIX|..]
  {
  }

  /** The schema without its constant and its enumeration. */
  function Bare(schema: Json): Json
    requires schema.JObj?
  {
    JObj(schema.fields - {"const", "enum"})
  }

  lemma BareFields(schema: Json, key: string)
    requires schema.JObj? && key != "const" && key != "enum"
    ensures Field(Bare(schema), key) == Field(schema, key)
  {
  }

  lemma BareRules(schema: Json, key: string, mode: Mode)
    requires schema.JObj?
    ensures RuleFor(Bare(schema), key, mode) == RuleFor(schema, key, mode)
  {
    hide Inherited, Truthy, Bare;
    BareFields(schema, "properties");
    BareFields(schema, "additionalProperties");
  }

  lemma BareObject(components: map<string, Json>, rank: map<string, nat>, runtime: Runtime, schema: Json,
      value: Json, mode: Mode)
    requires Acyclic(components, rank) && schema.JObj? && value.JObj?
    ensures ObjectAccepts(components, rank, runtime, Bare(schema), value, mode) <==>
        ObjectAccepts(components, rank, runtime, schema, value, mode)
  {
    hide Validate, RuleFor, Bare;
    BareFields(schema, "required");
    forall key ensures RuleFor(Bare(schema), key, mode) == RuleFor(schema, key, mode) {
      BareRules(schema, key, mode);
    }
  }

  lemma BareTypes(components: map<string, Json>, rank: map<string, nat>, runtime: Runtime, schema: Json, value: Json,
      mode: Mode)
    requires Acyclic(components, rank) && schema.JObj?
    ensures TypeAccepts(components, rank, runtime, Bare(schema), value, mode) <==>
        TypeAccepts(components, rank, runtime, schema, value, mode)
  {
    hide Validate, ObjectAccepts, Bare;
    BareFields(schema, "type");
    BareFields(schema, "items");
    BareFields(schema, "minimum");
    BareFields(schema, "maximum");
    BareFields(schema, "minLength");
    BareFields(schema, "maxLength");
    BareFields(schema, "pattern");
    BareFields(schema, "format");
    if value.JObj? {
      BareObject(components, rank, runtime, schema, value, mode);
    }
  }

  /** A constant lets through nothing but that scalar, and an enumeration nothing but its scalars; what they let
      through is judged by the rest of the schema. */
  lemma LiteralsMean(components: map<string, Json>, rank: map<string, nat>, runtime: Runtime, schema: Json,
      value: Json, mode: Mode)
    requires Acyclic(components, rank) && Plain(schema)
    ensures Validate(components, rank, runtime, schema, value, mode) <==>
              && ("const" in schema.fields ==> value == schema.fields["const"] && !value.JArr? && !value.JObj?)
              && ("enum" in schema.fields && schema.fields["enum"].JArr? ==>
                    value in schema.fields["enum"].items && !value.JArr? && !value.JObj?)
              && Validate(components, rank, runtime, Bare(schema), value, mode)
  {
    hide TypeAccepts;
    BareTypes(components, rank, runtime, schema, value, mode);
  }

  /** Without constant and enumeration, the type and its own keywords decide. */
  predicate Typed(schema: Json, name: string) {
    Plain(schema) && "const" !in schema.fields && "enum" !in schema.fields && Says(schema, "type", JStr(name))
  }

  predicate Below(schema: Json, key: string, n: real) {
    schema.JObj? && key in schema.fields ==>
      match schema.fields[key]
      case JNum(bound) => n <= bound as real
      case JFrac(bound) => n <= bound
      case _ => true
  }

  predicate Above(schema: Json, key: string, n: real) {
    schema.JObj? && key in schema.fields ==>
      match schema.fields[key]
      case JNum(bound) => bound as real <= n
      case JFrac(bound) => bound <= n
      case _ => true
  }

  /** Scalars: null and booleans by their kind, integers safe and within bounds, numbers within bounds, strings by
      length, pattern and format; an unknown type accepts nothing. */
  lemma ScalarMeans(components: map<string, Json>, rank: map<string, nat>, runtime: Runtime, schema: Json,
      name: string, value: Json, mode: Mode)
    requires Acyclic(components, rank) && Typed(schema, name) && name != "array" && name != "object"
    ensures Validate(components, rank, runtime, schema, value, mode) <==>
              match value
              case JNull => name == "null"
              case JBool(_) => name == "boolean"
              case JNum(n) =>
                && (name == "number" || (name == "integer" && -9_007_199_254_740_991 <= n <= 9_007_199_254_740_991))
                && Above(schema, "minimum", n as real) && Below(schema, "maximum", n as real)
              case JFrac(r) => name == "number" && Above(schema, "minimum", r) && Below(schema, "maximum", r)
              case JStr(s) =>
                && name == "string" && Above(schema, "minLength", |s| as real) && Below(schema, "maxLength", |s| as real)
                && ("pattern" in schema.fields && schema.fields["pattern"].JStr? ==>
                      runtime.matches(schema.fields["pattern"].s, s))
                && ("format" in schema.fields && schema.fields["format"].JStr? ==>
                      runtime.validFormat(schema.fields["format"].s, s))
              case _ => false
  {
  }

  /** An array: each of its values fits the schema for items, which there has to be. */
  lemma ArrayMeans(components: map<string, Json>, rank: map<string, nat>, runtime: Runtime, schema: Json,
      value: Json, mode: Mode)
    requires Acyclic(components, rank) && Typed(schema, "array")
    ensures Validate(components, rank, runtime, schema, value, mode) <==>
              && value.JArr? && "items" in schema.fields && Truthy(schema.fields["items"])
              && forall i :: 0 <= i < |value.items| ==>
                   Validate(components, rank, runtime, schema.fields["items"], value.items[i], mode)
  {
    hide Truthy;
    ArrayDecides(components, rank, runtime, schema, value, mode);
    hide Validate;
  }

  lemma ArrayDecides(components: map<string, Json>, rank: map<string, nat>, runtime: Runtime, schema: Json,
      value: Json, mode: Mode)
    requires Acyclic(components, rank) && Typed(schema, "array")
    ensures Validate(components, rank, runtime, schema, value, mode) <==>
        value.JArr? && ItemsAccept(components, rank, runtime, schema, value, mode)
  {
    hide ItemsAccept;
  }

  /** What an object schema demands of one property of the value. */
  predicate PropertyFits(components: map<string, Json>, ghost rank: map<string, nat>, runtime: Runtime, schema: Json,
      key: string, value: Json, mode: Mode)
    requires Acyclic(components, rank) && schema.JObj?
  {
    var declared := "properties" in schema.fields && schema.fields["properties"].JObj? &&
        key in schema.fields["properties"].fields;
    if declared && Truthy(schema.fields["properties"].fields[key]) then
      Validate(components, rank, runtime, schema.fields["properties"].fields[key], value, mode)
    else
      && (declared || !Inherited(key))
      && ("additionalProperties" in schema.fields ==>
            match schema.fields["additionalProperties"]
            case JObj(_) => Validate(components, rank, runtime, schema.fields["additionalProperties"], value, mode)
            case JArr(_) => Validate(components, rank, runtime, schema.fields["additionalProperties"], value, mode)
            case JBool(open) => open || mode.Response?
            case _ => true)
  }

  /** An object: every required name is there, every declared property fits its schema, and every other one fits the
      schema for additional properties or, in a closed schema, only a response. */
  lemma ObjectMeans(components: map<string, Json>, rank: map<string, nat>, runtime: Runtime, schema: Json,
      value: Json, mode: Mode)
    requires Acyclic(components, rank) && Typed(schema, "object")
    ensures Validate(components, rank, runtime, schema, value, mode) <==>
              && value.JObj?
              && ("required" in schema.fields && schema.fields["required"].JArr? ==>
                    forall i :: 0 <= i < |schema.fields["required"].items| ==>
                      var name := schema.fields["required"].items[i];
                      name.JStr? && (name.s in value.fields || Inherited(name.s)))
              && forall key :: key in value.fields ==>
                   PropertyFits(components, rank, runtime, schema, key, value.fields[key], mode)
  {
    hide Truthy, Inherited, Validate;
    ObjectDecides(components, rank, runtime, schema, value, mode);
    if value.JObj? {
      forall key | key in value.fields
        ensures PropertyFits(components, rank, runtime, schema, key, value.fields[key], mode) <==>
                  match RuleFor(schema, key, mode)
                  case Check(property) => Validate(components, rank, runtime, property, value.fields[key], mode)
                  case Refuse => false
                  case Ignore => true
      {
      }
    }
  }

  lemma ObjectDecides(components: map<string, Json>, rank: map<string, nat>, runtime: Runtime, schema: Json,
      value: Json, mode: Mode)
    requires Acyclic(components, rank) && Typed(schema, "object")
    ensures Validate(components, rank, runtime, schema, value, mode) <==>
        value.JObj? && ObjectAccepts(components, rank, runtime, schema, value, mode)
  {
    hide ObjectAccepts;
  }

  // ---- the two modes ---

  lemma SameRule(schema: Json, key: string)
    ensures RuleFor(schema, key, Response) == RuleFor(schema, key, Request) ||
            (RuleFor(schema, key, Request) == Refuse && RuleFor(schema, key, Response) == Ignore &&
             Field(schema, "additionalProperties") == Some(JBool(false)))
  {
    hide Inherited, Truthy;
  }

  /** Whatever is accepted as a request is accepted as a response, through every reference, alternative, array
      and object. */
  lemma {:induction false} RequestImpliesResponse(components: map<string, Json>, rank: map<string, nat>,
      runtime: Runtime, schema: Json, value: Json)
    requires Acyclic(components, rank) && Validate(components, rank, runtime, schema, value, Request)
    ensures Validate(components, rank, runtime, schema, value, Response)
    decreases value, RefRank(schema, rank), schema, 2
  {
    hide TypeAccepts, LiteralsAccept;
    if HasRef(schema) {
      RequestImpliesResponse(components, rank, runtime, components[RefName(schema).value], value);
    } else if Alternatives(schema).Some? {
      var items := Alternatives(schema).value;
      var i :| 0 <= i < |items| && Validate(components, rank, runtime, items[i], value, Request);
      AlternativeSmaller(schema, i);
      ItemRank(items, rank, i);
      RequestImpliesResponse(components, rank, runtime, items[i], value);
    } else {
      TypeImplies(components, rank, runtime, schema, value);
    }
  }

  lemma {:induction false} TypeImplies(components: map<string, Json>, rank: map<string, nat>, runtime: Runtime,
      schema: Json, value: Json)
    requires Acyclic(components, rank) && TypeAccepts(components, rank, runtime, schema, value, Request)
    ensures TypeAccepts(components, rank, runtime, schema, value, Response)
    decreases value, 0, schema, 1
  {
    hide Validate, ScalarAccepts, ObjectAccepts, KindOf;
    if value.JArr? && ItemsAccept(components, rank, runtime, schema, value, Request) {
      forall i | 0 <= i < |value.items| ensures Validate(components, rank, runtime, Field(schema, "items").value,
          value.items[i], Response) {
        RequestImpliesResponse(components, rank, runtime, Field(schema, "items").value, value.items[i]);
      }
    } else if value.JObj? && ObjectAccepts(components, rank, runtime, schema, value, Request) {
      ObjectImplies(components, rank, runtime, schema, value);
    }
  }

  lemma {:induction false} ObjectImplies(components: map<string, Json>, rank: map<string, nat>, runtime: Runtime,
      schema: Json, value: Json)
    requires Acyclic(components, rank) && value.JObj? &&
        ObjectAccepts(components, rank, runtime, schema, value, Request)
    ensures ObjectAccepts(components, rank, runtime, schema, value, Response)
    decreases value, 0, schema, 0
  {
    hide Validate, RequiredPresent, RuleFor;
    forall key | key in value.fields
      ensures RuleFor(schema, key, Request) != Refuse ==>
          RuleFor(schema, key, Response) == RuleFor(schema, key, Request)
      ensures RuleFor(schema, key, Request).Check? && Validate(components, rank, runtime, RuleFor(schema, key, Request).schema, value.fields[key], Request) ==>
                Validate(components, rank, runtime, RuleFor(schema, key, Request).schema, value.fields[key], Response)
    {
      SameRule(schema, key);
      if RuleFor(schema, key, Request).Check? &&
          Validate(components, rank, runtime, RuleFor(schema, key, Request).schema, value.fields[key], Request) {
        RequestImpliesResponse(components, rank, runtime, RuleFor(schema, key, Request).schema, value.fields[key]);
      }
    }
  }

  // ---- the tolerant mode is the strict mode of an opened contract ---

  predicate Closes(key: string, value: Json) {
    key == "additionalProperties" && value == JBool(false)
  }

  /** The same schema with every `additionalProperties: false` taken out, at any depth. */
  function Opened(schema: Json): Json
    decreases schema
  {
    match schema
    case JArr(items) => JArr(seq(|items|, i requires 0 <= i < |items| => Opened(items[i])))
    case JObj(fields) => JObj(map key | key in fields && !Closes(key, fields[key]) :: Opened(fields[key]))
    case _ => schema
  }

  function OpenedAll(components: map<string, Json>): map<string, Json> {
    map name | name in components :: Opened(components[name])
  }

  function OpenedField(schema: Json, key: string): Option<Json> {
    match Field(schema, key)
    case None => None
    case Some(value) => if Closes(key, value) then None else Some(Opened(value))
  }

  lemma {:induction false} FieldOpened(schema: Json, key: string)
    ensures Field(Opened(schema), key) == OpenedField(schema, key)
  {
  }

  lemma {:induction false} LeafOpened(value: Json)
    ensures !value.JArr? && !value.JObj? ==> Opened(value) == value
    ensures value.JArr? <==> Opened(value).JArr?
    ensures value.JObj? <==> Opened(value).JObj?
    ensures Truthy(value) <==> Truthy(Opened(value))
  {
  }

  lemma {:induction false} ShapeOpened(schema: Json)
    ensures HasRef(Opened(schema)) <==> HasRef(schema)
    ensures RefName(Opened(schema)) == RefName(schema)
    ensures Alternatives(schema).None? <==> Alternatives(Opened(schema)).None?
    ensures Alternatives(schema).Some? ==>
              Alternatives(Opened(schema)).value == OpenedItems(Alternatives(schema).value)
  {
    hide Opened;
    FieldOpened(schema, "$ref");
    FieldOpened(schema, "anyOf");
    if Field(schema, "$ref").Some? {
      LeafOpened(Field(schema, "$ref").value);
    }
    if Field(schema, "anyOf").Some? {
      LeafOpened(Field(schema, "anyOf").value);
      if Field(schema, "anyOf").value.JArr? {
        ListOpened(Field(schema, "anyOf").value.items);
      }
    }
  }

  function OpenedItems(items: seq<Json>): (r: seq<Json>)
    ensures |r| == |items|
  {
    seq(|items|, i requires 0 <= i < |items| => Opened(items[i]))
  }

  lemma {:induction false} ListOpened(items: seq<Json>)
    ensures Opened(JArr(items)) == JArr(OpenedItems(items))
  {
    assert Opened(JArr(items)).items == OpenedItems(items);
  }

  lemma {:induction false} RankOpened(schema: Json, rank: map<string, nat>)
    ensures RefRank(Opened(schema), rank) == RefRank(schema, rank)
    decreases schema, 1
  {
    hide Opened, HasRef, RefName, Alternatives, OpenedItems;
    ShapeOpened(schema);
    if !HasRef(schema) && Alternatives(schema).Some? {
      AlternativesSmaller(schema);
      ItemsRankOpened(schema, Alternatives(schema).value, rank);
    }
  }

  lemma AlternativesSmaller(schema: Json)
    requires Alternatives(schema).Some?
    ensures forall i :: 0 <= i < |Alternatives(schema).value| ==> Alternatives(schema).value[i] < schema
  {
    forall i | 0 <= i < |Alternatives(schema).value| ensures Alternatives(schema).value[i] < schema {
      AlternativeSmaller(schema, i);
    }
  }

  lemma {:induction false} ItemsRankOpened(schema: Json, items: seq<Json>, rank: map<string, nat>)
    requires forall i :: 0 <= i < |items| ==> items[i] < schema
    ensures ItemsRank(OpenedItems(items), rank) == ItemsRank(items, rank)
    decreases schema, 0, |items|
  {
    if items != [] {
      RankOpened(items[0], rank);
      assert OpenedItems(items)[1..] == OpenedItems(items[1..]);
      ItemsRankOpened(schema, items[1..], rank);
    }
  }

  lemma {:induction false} AcyclicOpened(components: map<string, Json>, rank: map<string, nat>)
    requires Acyclic(components, rank)
    ensures Acyclic(OpenedAll(components), rank)
  {
    hide RefRank, Opened;
    forall name | name in components ensures RefRank(Opened(components[name]), rank) <= rank[name] {
      RankOpened(components[name], rank);
    }
  }

  lemma {:induction false} LiteralsOpened(schema: Json, value: Json)
    ensures LiteralsAccept(Opened(schema), value) <==> LiteralsAccept(schema, value)
  {
    hide Opened;
    FieldOpened(schema, "const");
    FieldOpened(schema, "enum");
    if Field(schema, "const").Some? {
      LeafOpened(Field(schema, "const").value);
    }
    if Field(schema, "enum").Some? {
      LeafOpened(Field(schema, "enum").value);
      if Field(schema, "enum").value.JArr? {
        var items := Field(schema, "enum").value.items;
        ListOpened(items);
        forall i | 0 <= i < |items| ensures Identical(OpenedItems(items)[i], value) <==> Identical(items[i], value) {
          LeafOpened(items[i]);
        }
        assert (exists i | 0 <= i < |items| :: Identical(OpenedItems(items)[i], value)) <==>
               (exists i | 0 <= i < |items| :: Identical(items[i], value));
      }
    }
  }

  lemma {:induction false} KeywordOpened(schema: Json, key: string)
    requires key != "additionalProperties"
    ensures Field(schema, key).None? ==> Field(Opened(schema), key).None?
    ensures Field(schema, key).Some? ==> Field(Opened(schema), key) == Some(Opened(Field(schema, key).value))
    ensures Field(schema, key).Some? && !Field(schema, key).value.JArr? && !Field(schema, key).value.JObj? ==>
        Field(Opened(schema), key) == Field(schema, key)
    ensures Field(schema, key).Some? ==>
              (Field(Opened(schema), key).value.JArr? <==> Field(schema, key).value.JArr?) &&
              (Field(Opened(schema), key).value.JObj? <==> Field(schema, key).value.JObj?) &&
              (Truthy(Field(Opened(schema), key).value) <==> Truthy(Field(schema, key).value))
  {
    hide Opened;
    FieldOpened(schema, key);
    if Field(schema, key).Some? {
      LeafOpened(Field(schema, key).value);
    }
  }

  lemma {:induction false} BoundsOpened(schema: Json, value: real)
    ensures WithinBounds(Opened(schema), value) <==> WithinBounds(schema, value)
  {
    hide Opened, Truthy, Field;
    KeywordOpened(schema, "minimum");
    KeywordOpened(schema, "maximum");
  }

  lemma {:induction false} StringOpened(schema: Json, s: string, runtime: Runtime)
    ensures StringAccepts(Opened(schema), s, runtime) <==> StringAccepts(schema, s, runtime)
  {
    hide Opened, Truthy, Field;
    KeywordOpened(schema, "minLength");
    KeywordOpened(schema, "maxLength");
    KeywordOpened(schema, "pattern");
    KeywordOpened(schema, "format");
  }

  lemma {:induction false} RequiredOpened(schema: Json, fields: map<string, Json>)
    ensures RequiredPresent(Opened(schema), fields) <==> RequiredPresent(schema, fields)
  {
    hide Opened, Truthy, Inherited, Field;
    KeywordOpened(schema, "required");
    if Field(schema, "required").Some? && Field(schema, "required").value.JArr? {
      var items := Field(schema, "required").value.items;
      ListOpened(items);
      forall i | 0 <= i < |items| ensures OpenedItems(items)[i] == Opened(items[i]) &&
          (items[i].JStr? <==> Opened(items[i]).JStr?) && (items[i].JStr? ==> Opened(items[i]) == items[i]) {
        StringsOpened(items[i]);
      }
    }
  }

  lemma {:induction false} StringsOpened(value: Json)
    ensures value.JStr? <==> Opened(value).JStr?
    ensures value.JStr? ==> Opened(value) == value
  {
  }

  function OpenedRule(rule: Rule): Rule {
    if rule.Check? then Check(Opened(rule.schema)) else rule
  }

  lemma {:induction false} PropertiesOpened(schema: Json, key: string)
    ensures key in Properties(Opened(schema)) ==> key in Properties(schema) && Properties(Opened(schema))[key] == Opened(Properties(schema)[key])
    ensures key in Properties(schema) && Truthy(Properties(schema)[key]) ==> key in Properties(Opened(schema))
    ensures key in Properties(schema) && key !in Properties(Opened(schema)) ==> key == "additionalProperties"
  {
    KeywordOpened(schema, "properties");
  }

  lemma {:induction false} RuleOpened(schema: Json, key: string)
    ensures RuleFor(Opened(schema), key, Request) == OpenedRule(RuleFor(schema, key, Response))
  {
    hide Opened, Truthy, Properties, Field;
    PropertiesOpened(schema, key);
    FieldOpened(schema, "additionalProperties");
    if Field(schema, "additionalProperties").Some? {
      LeafOpened(Field(schema, "additionalProperties").value);
    }
    if key in Properties(schema) {
      LeafOpened(Properties(schema)[key]);
    }
    assert !Inherited("additionalProperties");
  }

  lemma {:induction false} ModesOpened(components: map<string, Json>, rank: map<string, nat>, runtime: Runtime,
      schema: Json, value: Json)
    requires Acyclic(components, rank) && Acyclic(OpenedAll(components), rank)
    ensures Validate(OpenedAll(components), rank, runtime, Opened(schema), value, Request) <==>
        Validate(components, rank, runtime, schema, value, Response)
    decreases value, RefRank(schema, rank), schema, 2
  {
    hide TypeAccepts, LiteralsAccept, Opened, Acyclic, Alternatives, RefRank;
    ShapeOpened(schema);
    LeafOpened(schema);
    if schema.JObj? {
      if HasRef(schema) {
        if RefName(schema).Some? && RefName(schema).value in components {
          TargetSmaller(components, rank, schema);
          ModesOpened(components, rank, runtime, components[RefName(schema).value], value);
        }
      } else if Alternatives(schema).Some? {
        var items := Alternatives(schema).value;
        forall i | 0 <= i < |items|
          ensures Validate(OpenedAll(components), rank, runtime, OpenedItems(items)[i], value, Request) <==>
              Validate(components, rank, runtime, items[i], value, Response)
        {
          AlternativeRanked(schema, rank, i);
          ModesOpened(components, rank, runtime, items[i], value);
        }
      } else {
        NoReference(schema, rank);
        LiteralsOpened(schema, value);
        TypesOpened(components, rank, runtime, schema, value);
      }
    }
  }

  lemma TargetSmaller(components: map<string, Json>, rank: map<string, nat>, schema: Json)
    requires Acyclic(components, rank) && HasRef(schema) && RefName(schema).Some? && RefName(schema).value in components
    ensures RefRank(components[RefName(schema).value], rank) < RefRank(schema, rank)
  {
  }

  lemma AlternativeRanked(schema: Json, rank: map<string, nat>, i: nat)
    requires !HasRef(schema) && Alternatives(schema).Some? && i < |Alternatives(schema).value|
    ensures RefRank(Alternatives(schema).value[i], rank) <= RefRank(schema, rank)
    ensures Alternatives(schema).value[i] < schema
  {
    AlternativeSmaller(schema, i);
    ItemRank(Alternatives(schema).value, rank, i);
  }

  lemma NoReference(schema: Json, rank: map<string, nat>)
    requires !HasRef(schema) && Alternatives(schema).None?
    ensures RefRank(schema, rank) == 0
  {
  }

  lemma {:induction false} TypesOpened(components: map<string, Json>, rank: map<string, nat>, runtime: Runtime,
      schema: Json, value: Json)
    requires Acyclic(components, rank) && Acyclic(OpenedAll(components), rank)
    ensures TypeAccepts(OpenedAll(components), rank, runtime, Opened(schema), value, Request) <==>
        TypeAccepts(components, rank, runtime, schema, value, Response)
    decreases value, 0, schema, 1
  {
    hide Validate, ScalarAccepts, ItemsAccept, ObjectAccepts, KindOf, Opened, Acyclic, OpenedAll;
    KindOpened(schema);
    if KindOf(schema).Scalar? {
      ScalarOpened(schema, KindOf(schema).name, value, runtime);
    }
    if value.JArr? {
      ItemsOpened(components, rank, runtime, schema, value);
    } else if value.JObj? {
      ObjectOpened(components, rank, runtime, schema, value);
    }
  }

  lemma {:induction false} KindOpened(schema: Json)
    ensures KindOf(Opened(schema)) == KindOf(schema)
  {
    hide Opened, Truthy;
    KeywordOpened(schema, "type");
  }

  lemma {:induction false} ScalarOpened(schema: Json, kind: string, value: Json, runtime: Runtime)
    ensures ScalarAccepts(Opened(schema), kind, value, runtime) <==> ScalarAccepts(schema, kind, value, runtime)
  {
    hide Opened, WithinBounds, StringAccepts;
    if value.JStr? {
      StringOpened(schema, value.s, runtime);
    } else if Real(value).Some? {
      BoundsOpened(schema, Real(value).value);
    }
  }

  lemma {:induction false} ItemsOpened(components: map<string, Json>, rank: map<string, nat>, runtime: Runtime,
      schema: Json, value: Json)
    requires Acyclic(components, rank) && Acyclic(OpenedAll(components), rank) && value.JArr?
    ensures ItemsAccept(OpenedAll(components), rank, runtime, Opened(schema), value, Request) <==>
        ItemsAccept(components, rank, runtime, schema, value, Response)
    decreases value, 0, schema, 0
  {
    hide Validate, Truthy, Opened, Field, Acyclic, OpenedAll;
    KeywordOpened(schema, "items");
    if Field(schema, "items").Some? {
      forall i | 0 <= i < |value.items|
        ensures Validate(OpenedAll(components), rank, runtime, Opened(Field(schema, "items").value), value.items[i],
            Request) <==>
                Validate(components, rank, runtime, Field(schema, "items").value, value.items[i], Response)
      {
        ModesOpened(components, rank, runtime, Field(schema, "items").value, value.items[i]);
      }
    }
  }

  lemma {:induction false} ObjectOpened(components: map<string, Json>, rank: map<string, nat>, runtime: Runtime,
      schema: Json, value: Json)
    requires Acyclic(components, rank) && Acyclic(OpenedAll(components), rank) && value.JObj?
    ensures ObjectAccepts(OpenedAll(components), rank, runtime, Opened(schema), value, Request) <==>
        ObjectAccepts(components, rank, runtime, schema, value, Response)
    decreases value, 0, schema, 0
  {
    hide Validate, RequiredPresent, RuleFor, Opened, Acyclic, OpenedAll;
    RequiredOpened(schema, value.fields);
    forall key | key in value.fields
      ensures RuleFor(Opened(schema), key, Request) == OpenedRule(RuleFor(schema, key, Response))
      ensures RuleFor(schema, key, Response).Check? ==>
                (Validate(OpenedAll(components), rank, runtime, Opened(RuleFor(schema, key, Response).schema),
                    value.fields[key], Request) <==>
                 Validate(components, rank, runtime, RuleFor(schema, key, Response).schema, value.fields[key],
                     Response))
    {
      RuleOpened(schema, key);
      if RuleFor(schema, key, Response).Check? {
        ModesOpened(components, rank, runtime, RuleFor(schema, key, Response).schema, value.fields[key]);
      }
    }
  }

  /** What the tolerant mode accepts is what the strict mode accepts once every closed object schema of the contract
      has been opened: unknown properties are the only thing the two modes treat differently. */
  lemma {:induction false} ResponseIsOpenedRequest(components: map<string, Json>, rank: map<string, nat>,
      runtime: Runtime, schema: Json, value: Json)
    requires Acyclic(components, rank)
    ensures Acyclic(OpenedAll(components), rank)
    ensures Validate(OpenedAll(components), rank, runtime, Opened(schema), value, Request) <==>
        Validate(components, rank, runtime, schema, value, Response)
  {
    AcyclicOpened(components, rank);
    ModesOpened(components, rank, runtime, schema, value);
  }
}
