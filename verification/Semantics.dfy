/** Which JSON values a schema of an OpenAPI 3.1.0 document accepts (section 4.8.24, over JSON Schema 2020-12). */
module Semantics {
  import opened Json
  import opened Reference

  /** What the keywords whose meaning is not spelled out here say of a value: `pattern`, the formats and keywords the
      checker never reads. Arguments: the keyword, what it is judged by, the instance. */
  type Meaning = (string, Json, Json) -> bool

  /** Asserting keywords of JSON Schema 2020-12 that the checker never reads and that are not spelled out here. */
  const UNREAD_KEYWORDS: set<string> := {
    "multipleOf", "uniqueItems", "propertyNames", "contains", "if", "dependentRequired", "dependentSchemas",
    "unevaluatedItems", "unevaluatedProperties", "$dynamicRef"
  }

  const OPAQUE_KEYWORDS: set<string> :=
    {"pattern", "format", "contentEncoding", "contentMediaType"} + UNREAD_KEYWORDS

  const LOWER_BOUNDS: set<string> := {"minimum", "exclusiveMinimum", "minLength", "minItems", "minProperties"}
  const UPPER_BOUNDS: set<string> := {"maximum", "exclusiveMaximum", "maxLength", "maxItems", "maxProperties"}

  /** What a keyword is judged by: its value, and for some the keywords beside it as well. */
  function Judged(m: Object, k: string): Json {
    if k == "if" then Arr([Get(m, "if"), Get(m, "then"), Get(m, "else")])
    else if k == "contains" then Arr([Get(m, "contains"), Get(m, "minContains"), Get(m, "maxContains")])
    else if k == "unevaluatedItems" || k == "unevaluatedProperties" then Obj(m)
    else Get(m, k)
  }

  function PatternProperties(m: Object): Object {
    Fields(Get(m, "patternProperties"))
  }

  function PrefixItems(m: Object): seq<Json> {
    Elements(Get(m, "prefixItems"))
  }

  /** A name of `patternProperties` applies to the member names it matches, as `pattern` does to strings. */
  predicate Matches(meaning: Meaning, pattern: string, name: string) {
    meaning("pattern", Str(pattern), Str(name))
  }

  ghost predicate Matched(meaning: Meaning, m: Object, name: string) {
    exists pattern :: pattern in PatternProperties(m) && Matches(meaning, pattern, name)
  }

  /** JSON Schema Validation 2020-12, section 6.1.1. */
  predicate HasType(v: Json, name: string) {
    || (name == "null" && v.Null?)
    || (name == "boolean" && v.Bool?)
    || (name == "number" && v.Num?)
    || (name == "integer" && v.Num? && v.n.Floor as real == v.n)
    || (name == "string" && v.Str?)
    || (name == "array" && v.Arr?)
    || (name == "object" && v.Obj?)
  }

  /** The quantity a bound keyword limits, for the instances it applies to (sections 6.2 to 6.5). */
  function Measure(keyword: string, v: Json): Option<real> {
    if keyword in {"minLength", "maxLength"} then if v.Str? then Some(|v.s| as real) else None
    else if keyword in {"minItems", "maxItems"} then if v.Arr? then Some(|v.items| as real) else None
    else if keyword in {"minProperties", "maxProperties"} then if v.Obj? then Some(|v.fields| as real) else None
    else if v.Num? then Some(v.n) else None
  }

  predicate AboveBound(keyword: string, bound: Json, v: Json) {
    var m := Measure(keyword, v);
    bound.Num? && m.Some? ==> if keyword == "exclusiveMinimum" then m.value > bound.n else m.value >= bound.n
  }

  predicate BelowBound(keyword: string, bound: Json, v: Json) {
    var m := Measure(keyword, v);
    bound.Num? && m.Some? ==> if keyword == "exclusiveMaximum" then m.value < bound.n else m.value <= bound.n
  }

  /** `type` is a name or a list of names. */
  ghost predicate TypeHolds(m: Object, v: Json) {
    match Get(m, "type")
    case Str(name) => HasType(v, name)
    case Arr(names) =>
      || (forall x :: x in names ==> !x.Str?)
      || exists x :: x in names && x.Str? && HasType(v, x.s)
    case _ => true
  }

  ghost predicate RequiredHolds(m: Object, v: Json) {
    v.Obj? && Get(m, "required").Arr? ==> forall x :: x in Get(m, "required").items && x.Str? ==> x.s in v.fields
  }

  ghost predicate EnumHolds(m: Object, v: Json) {
    Get(m, "enum").Arr? ==> exists x :: x in Get(m, "enum").items && JsonEq(v, x)
  }

  ghost predicate OpaqueHolds(meaning: Meaning, m: Object, v: Json) {
    forall k :: k in OPAQUE_KEYWORDS && Get(m, k) != Null ==> meaning(k, Judged(m, k), v)
  }

  /** The keywords that judge a value without looking at subschemas. */
  ghost predicate Asserts(meaning: Meaning, m: Object, v: Json) {
    && TypeHolds(m, v)
    && ("const" in m ==> JsonEq(v, m["const"]))
    && EnumHolds(m, v)
    && RequiredHolds(m, v)
    && (forall k :: k in LOWER_BOUNDS ==> AboveBound(k, Get(m, k), v))
    && (forall k :: k in UPPER_BOUNDS ==> BelowBound(k, Get(m, k), v))
    && OpaqueHolds(meaning, m, v)
  }

  /** A value is valid against a schema in a document. `unseen` holds the references not yet followed at this value:
      a reference that leads back to itself without descending into the value, and one that leads nowhere, accept
      nothing. */
  ghost predicate Valid(meaning: Meaning, doc: Json, schema: Json, v: Json, unseen: set<string>)
    decreases v, 1, unseen, schema, 2
  {
    match schema
    case Bool(b) => b
    case Obj(m) =>
      && (RefOf(schema).Some? ==>
            var r := RefOf(schema).value;
            && Local(r) && r in unseen && Target(doc, r).Resolved?
            && Valid(meaning, doc, Target(doc, r).value, v, unseen - {r}))
      && Asserts(meaning, m, v)
      && ValidMembers(meaning, doc, m, v)
      && ValidItems(meaning, doc, m, v)
      && ValidCompositions(meaning, doc, m, v, unseen)
    case _ => true
  }

  /** A value is valid against a schema: every reference of the document and the schema may be followed. */
  ghost predicate Accepts(meaning: Meaning, doc: Json, schema: Json, v: Json)
    decreases v, 2
  {
    Valid(meaning, doc, schema, v, Refs(doc) + Refs(schema))
  }

  /** `properties`, `patternProperties` and `additionalProperties`: JSON Schema Core 2020-12, section 10.3.2. */
  ghost predicate ValidMembers(meaning: Meaning, doc: Json, m: Object, v: Json)
    decreases v, 0
  {
    v.Obj? ==> forall k :: k in v.fields ==> ValidMember(meaning, doc, m, k, v.fields[k])
  }

  ghost predicate ValidMember(meaning: Meaning, doc: Json, m: Object, k: string, x: Json)
    decreases x, 3
  {
    && (k in Fields(Get(m, "properties")) ==> Accepts(meaning, doc, Fields(Get(m, "properties"))[k], x))
    && (forall pattern :: pattern in PatternProperties(m) && Matches(meaning, pattern, k) ==>
                            Accepts(meaning, doc, PatternProperties(m)[pattern], x))
    && (k !in Fields(Get(m, "properties")) && !Matched(meaning, m, k) ==>
          Accepts(meaning, doc, GetOr(m, "additionalProperties", Bool(true)), x))
  }

  /** `prefixItems` and `items`: section 10.3.1. */
  ghost predicate ValidItems(meaning: Meaning, doc: Json, m: Object, v: Json)
    decreases v, 0
  {
    v.Arr? ==> forall i :: 0 <= i < |v.items| ==> ValidItem(meaning, doc, m, i, v.items[i])
  }

  ghost predicate ValidItem(meaning: Meaning, doc: Json, m: Object, i: nat, x: Json)
    decreases x, 3
  {
    && (i < |PrefixItems(m)| ==> Accepts(meaning, doc, PrefixItems(m)[i], x))
    && (i >= |PrefixItems(m)| && "items" in m ==> Accepts(meaning, doc, m["items"], x))
  }

  /** The places of a list of schemas that accept the value. */
  ghost function ValidAt(meaning: Meaning, doc: Json, list: Json, v: Json, unseen: set<string>): set<nat>
    decreases v, 1, unseen, list, 0
  {
    set i: nat | i < |Elements(list)| && Valid(meaning, doc, Elements(list)[i], v, unseen)
  }

  ghost function ValidIn(meaning: Meaning, doc: Json, m: Object, key: string, v: Json, unseen: set<string>): set<nat>
    decreases v, 1, unseen, Obj(m), 0
  {
    if key in m then ValidAt(meaning, doc, m[key], v, unseen) else {}
  }

  /** `allOf`, `anyOf`, `oneOf` and `not` (section 10.2.1), given where their subschemas accept. */
  ghost predicate Combined(m: Object, all: set<nat>, any: set<nat>, one: set<nat>, negated: bool) {
    && |all| == |Elements(Get(m, "allOf"))|
    && (Get(m, "anyOf").Arr? ==> any != {})
    && (Get(m, "oneOf").Arr? ==> |one| == 1)
    && !negated
  }

  ghost predicate ValidCompositions(meaning: Meaning, doc: Json, m: Object, v: Json, unseen: set<string>)
    decreases v, 1, unseen, Obj(m), 1
  {
    Combined(m, ValidIn(meaning, doc, m, "allOf", v, unseen), ValidIn(meaning, doc, m, "anyOf", v, unseen),
             ValidIn(meaning, doc, m, "oneOf", v, unseen), Excluded(meaning, doc, m, v, unseen))
  }

  ghost predicate Excluded(meaning: Meaning, doc: Json, m: Object, v: Json, unseen: set<string>)
    decreases v, 1, unseen, Obj(m), 0
  {
    "not" in m && m["not"] != Null && Valid(meaning, doc, m["not"], v, unseen)
  }
}
