/** What `find_breaking_changes` and the comparisons between it and the schemas report, and where they fail. */
module DocumentRules {
  import opened Json
  import opened Reference
  import opened SchemaRules
  import opened Version

  const HTTP_METHODS: set<string> := {"delete", "get", "head", "options", "patch", "post", "put", "trace"}

  // ---- schemas held under keys: media types, headers, parameters ----

  type Slots<K> = map<K, Json>

  function SlotFate<K>(bd: Json, cd: Json, was: Slots<K>, now: Slots<K>, key: K, stack: nat): set<Error>
    requires key in was && key in now
  {
    SchemaFate(bd, cd, was[key], now[key], stack)
  }

  function SlotsFate<K>(bd: Json, cd: Json, was: Slots<K>, now: Slots<K>, stack: nat): set<Error> {
    set k, e | k in was && k in now && e in SlotFate(bd, cd, was, now, k, stack) :: e
  }

  predicate SlotClean<K>(bd: Json, cd: Json, was: Slots<K>, now: Slots<K>, key: K, direction: Direction, stack: nat)
    requires key in was
  {
    key in now && SchemaClean(bd, cd, was[key], now[key], direction, stack)
  }

  predicate SlotsClean<K>(bd: Json, cd: Json, was: Slots<K>, now: Slots<K>, direction: Direction, stack: nat) {
    forall k :: k in was ==> SlotClean(bd, cd, was, now, k, direction, stack)
  }

  function MediaSchemas(content: Json): Slots<string> {
    map k | k in Fields(content) :: Get(Fields(Fields(content)[k]), "schema")
  }

  // ---- parameters ----

  /** `_parameter_key`, for `in` and `name` that are strings. */
  type ParameterKey = (Json, Json)

  function KeyOf(parameter: Json): ParameterKey {
    var m := Fields(parameter);
    var reference := Get(m, "$ref");
    if reference.Str? then (Str("$ref"), reference)
    else (GetOr(m, "in", Str("unknown")), GetOr(m, "name", Str("unknown")))
  }

  /** The parameters of an operation by key; operation-level ones come after path-level ones and win. */
  function ParameterMap(doc: Json, list: seq<Json>): map<ParameterKey, Object> {
    if list == [] then map[]
    else
      var last := list[|list| - 1];
      ParameterMap(doc, list[..|list| - 1])[KeyOf(last) := ResolvedFields(doc, last)]
  }

  function ParameterList(pathLevel: Json, operation: Object): seq<Json> {
    Elements(pathLevel) + Elements(Get(operation, "parameters"))
  }

  predicate AllResolve(doc: Json, list: seq<Json>) {
    forall i :: 0 <= i < |list| ==> Resolve(doc, list[i]).Resolved?
  }

  function ParameterSchemas(parameters: map<ParameterKey, Object>): Slots<ParameterKey> {
    map k | k in parameters :: Get(parameters[k], "schema")
  }

  predicate IsRequired(m: Object) {
    Truthy(Get(m, "required"))
  }

  function ParametersFate(bd: Json, cd: Json, was: seq<Json>, now: seq<Json>, stack: nat): set<Error> {
    (if AllResolve(bd, was) && AllResolve(cd, now) then {} else {UnresolvedReference})
    + SlotsFate(bd, cd, ParameterSchemas(ParameterMap(bd, was)), ParameterSchemas(ParameterMap(cd, now)), stack)
  }

  predicate NoNewRequirement(was: map<ParameterKey, Object>, now: map<ParameterKey, Object>) {
    forall k :: k in now && IsRequired(now[k]) ==> k in was && IsRequired(was[k])
  }

  predicate ParametersClean(bd: Json, cd: Json, was: seq<Json>, now: seq<Json>, stack: nat) {
    && SlotsClean(bd, cd, ParameterSchemas(ParameterMap(bd, was)), ParameterSchemas(ParameterMap(cd, now)), Request,
                  stack)
    && NoNewRequirement(ParameterMap(bd, was), ParameterMap(cd, now))
  }

  // ---- request bodies ----

  function BodyMedia(doc: Json, body: Json): Slots<string> {
    MediaSchemas(Get(ResolvedFields(doc, body), "content"))
  }

  function BodyFate(bd: Json, cd: Json, was: Json, now: Json, stack: nat): set<Error> {
    if now == Null then {}
    else if was == Null then if Resolve(cd, now).Resolved? then {} else {UnresolvedReference}
    else DeclaredBodyFate(bd, cd, was, now, stack)
  }

  function DeclaredBodyFate(bd: Json, cd: Json, was: Json, now: Json, stack: nat): set<Error> {
    if Resolve(bd, was).Unresolved? || Resolve(cd, now).Unresolved? then {UnresolvedReference}
    else SlotsFate(bd, cd, BodyMedia(bd, was), BodyMedia(cd, now), stack)
  }

  predicate BodyClean(bd: Json, cd: Json, was: Json, now: Json, stack: nat) {
    if was == Null then now == Null || !IsRequired(ResolvedFields(cd, now))
    else now != Null && DeclaredBodyClean(bd, cd, was, now, stack)
  }

  predicate DeclaredBodyClean(bd: Json, cd: Json, was: Json, now: Json, stack: nat) {
    && (IsRequired(ResolvedFields(cd, now)) ==> IsRequired(ResolvedFields(bd, was)))
    && SlotsClean(bd, cd, BodyMedia(bd, was), BodyMedia(cd, now), Request, stack)
  }

  // ---- responses ----

  function HeaderFate(bd: Json, cd: Json, was: Object, now: Object, name: string, stack: nat): set<Error>
    requires name in was && name in now
  {
    if Resolve(bd, was[name]).Unresolved? || Resolve(cd, now[name]).Unresolved? then {UnresolvedReference}
    else SchemaFate(bd, cd, HeaderSchema(bd, was[name]), HeaderSchema(cd, now[name]), stack)
  }

  function HeaderSchema(doc: Json, header: Json): Json {
    Get(ResolvedFields(doc, header), "schema")
  }

  function HeadersFate(bd: Json, cd: Json, was: Object, now: Object, stack: nat): set<Error> {
    set k, e | k in was && k in now && e in HeaderFate(bd, cd, was, now, k, stack) :: e
  }

  predicate HeaderClean(bd: Json, cd: Json, was: Object, now: Object, name: string, stack: nat)
    requires name in was
  {
    && name in now
    && SchemaClean(bd, cd, HeaderSchema(bd, was[name]), HeaderSchema(cd, now[name]), Response, stack)
  }

  predicate HeadersClean(bd: Json, cd: Json, was: Object, now: Object, stack: nat) {
    forall k :: k in was ==> HeaderClean(bd, cd, was, now, k, stack)
  }

  function Headers(response: Object): Object {
    Fields(Get(response, "headers"))
  }

  function ResponseFate(bd: Json, cd: Json, was: Json, now: Json, stack: nat): set<Error> {
    if Resolve(bd, was).Unresolved? || Resolve(cd, now).Unresolved? then {UnresolvedReference}
    else
      var b, c := ResolvedFields(bd, was), ResolvedFields(cd, now);
      HeadersFate(bd, cd, Headers(b), Headers(c), stack)
      + SlotsFate(bd, cd, MediaSchemas(Get(b, "content")), MediaSchemas(Get(c, "content")), stack)
  }

  predicate ResponseClean(bd: Json, cd: Json, was: Json, now: Json, stack: nat) {
    var b, c := ResolvedFields(bd, was), ResolvedFields(cd, now);
    && HeadersClean(bd, cd, Headers(b), Headers(c), stack)
    && SlotsClean(bd, cd, MediaSchemas(Get(b, "content")), MediaSchemas(Get(c, "content")), Response, stack)
  }

  function StatusFate(bd: Json, cd: Json, was: Object, now: Object, status: string, stack: nat): set<Error>
    requires status in was && status in now
  {
    ResponseFate(bd, cd, was[status], now[status], stack)
  }

  function ResponsesFate(bd: Json, cd: Json, was: Object, now: Object, stack: nat): set<Error> {
    set k, e | k in was && k in now && e in StatusFate(bd, cd, was, now, k, stack) :: e
  }

  predicate StatusClean(bd: Json, cd: Json, was: Object, now: Object, status: string, stack: nat)
    requires status in was
  {
    status in now && ResponseClean(bd, cd, was[status], now[status], stack)
  }

  predicate ResponsesClean(bd: Json, cd: Json, was: Object, now: Object, stack: nat) {
    forall k :: k in was ==> StatusClean(bd, cd, was, now, k, stack)
  }

  // ---- operations, paths, documents ----

  /** An operation together with the parameters its path contributes. */
  datatype Operation = Operation(pathParameters: Json, fields: Object) {
    function Parameters(): seq<Json> { ParameterList(pathParameters, fields) }
    function Body(): Json { Get(fields, "requestBody") }
    function Responses(): Object { Fields(Get(fields, "responses")) }
  }

  function OperationFate(bd: Json, cd: Json, b: Operation, c: Operation, stack: nat): set<Error> {
    ParametersFate(bd, cd, b.Parameters(), c.Parameters(), stack)
    + BodyFate(bd, cd, b.Body(), c.Body(), stack)
    + ResponsesFate(bd, cd, b.Responses(), c.Responses(), stack)
  }

  predicate OperationClean(bd: Json, cd: Json, b: Operation, c: Operation, stack: nat) {
    && SameKeyword(b.fields, c.fields, "operationId")
    && SameKeyword(b.fields, c.fields, "security")
    && ParametersClean(bd, cd, b.Parameters(), c.Parameters(), stack)
    && BodyClean(bd, cd, b.Body(), c.Body(), stack)
    && ResponsesClean(bd, cd, b.Responses(), c.Responses(), stack)
  }

  function Paths(doc: Json): Object {
    Fields(Get(Fields(doc), "paths"))
  }

  function PathItem(doc: Json, path: string): Object
    requires path in Paths(doc)
  {
    Fields(Paths(doc)[path])
  }

  function OperationOf(item: Object, verb: string): Operation
    requires verb in item
  {
    Operation(GetOr(item, "parameters", Arr([])), Fields(item[verb]))
  }

  function Verbs(item: Object): (verbs: set<string>)
    ensures verbs <= item.Keys
  {
    HTTP_METHODS * item.Keys
  }

  function VerbFate(bd: Json, cd: Json, was: Object, now: Object, verb: string, stack: nat): set<Error>
    requires verb in was && verb in now
  {
    OperationFate(bd, cd, OperationOf(was, verb), OperationOf(now, verb), stack)
  }

  function PathFate(bd: Json, cd: Json, was: Object, now: Object, stack: nat): set<Error> {
    set v, e | v in Verbs(was) && v in now && e in VerbFate(bd, cd, was, now, v, stack) :: e
  }

  predicate VerbClean(bd: Json, cd: Json, was: Object, now: Object, verb: string, stack: nat)
    requires verb in was
  {
    verb in now && OperationClean(bd, cd, OperationOf(was, verb), OperationOf(now, verb), stack)
  }

  predicate PathClean(bd: Json, cd: Json, was: Object, now: Object, stack: nat) {
    forall v :: v in Verbs(was) ==> VerbClean(bd, cd, was, now, v, stack)
  }

  function ItemFate(bd: Json, cd: Json, path: string, stack: nat): set<Error>
    requires path in Paths(bd) && path in Paths(cd)
  {
    PathFate(bd, cd, PathItem(bd, path), PathItem(cd, path), stack)
  }

  function PathsFate(bd: Json, cd: Json, stack: nat): set<Error> {
    set p, e | p in Paths(bd) && p in Paths(cd) && e in ItemFate(bd, cd, p, stack) :: e
  }

  predicate ItemClean(bd: Json, cd: Json, path: string, stack: nat)
    requires path in Paths(bd)
  {
    path in Paths(cd) && PathClean(bd, cd, PathItem(bd, path), PathItem(cd, path), stack)
  }

  predicate PathsClean(bd: Json, cd: Json, stack: nat) {
    forall p :: p in Paths(bd) ==> ItemClean(bd, cd, p, stack)
  }

  function ProblemCodes(doc: Json): set<string> {
    StringSet(Get(Fields(doc), "x-simula-stable-problem-codes"))
  }

  function SecuritySchemes(doc: Json): Object {
    Fields(Get(Fields(Get(Fields(doc), "components")), "securitySchemes"))
  }

  predicate SecurityClean(bd: Json, cd: Json) {
    forall k :: k in SecuritySchemes(bd) ==>
                  k in SecuritySchemes(cd) && PyEq(SecuritySchemes(bd)[k], SecuritySchemes(cd)[k])
  }

  /** A new major version is free to break. */
  predicate MajorBump(bd: Json, cd: Json) {
    MajorVersion(cd) > MajorVersion(bd)
  }

  function DocumentFate(bd: Json, cd: Json, stack: nat): set<Error> {
    if MajorBump(bd, cd) then {} else PathsFate(bd, cd, stack)
  }

  predicate DocumentClean(bd: Json, cd: Json, stack: nat) {
    MajorBump(bd, cd) ||
    (ProblemCodes(bd) <= ProblemCodes(cd) && SecurityClean(bd, cd) && PathsClean(bd, cd, stack))
  }

  // ---- the set comprehensions, key by key ----

  lemma SlotCases<K>(bd: Json, cd: Json, was: Slots<K>, now: Slots<K>, key: K, direction: Direction, stack: nat)
    requires key in was
    ensures key in now ==> SlotFate(bd, cd, was, now, key, stack) == SchemaFate(bd, cd, was[key], now[key], stack)
    ensures SlotClean(bd, cd, was, now, key, direction, stack) <==>
              key in now && SchemaClean(bd, cd, was[key], now[key], direction, stack)
  {
    hide SchemaFate, SchemaClean;
  }

  lemma SlotRaises<K>(bd: Json, cd: Json, was: Slots<K>, now: Slots<K>, key: K, stack: nat)
    requires key in was && key in now
    ensures SlotFate(bd, cd, was, now, key, stack) <= SlotsFate(bd, cd, was, now, stack)
  {
    hide SlotFate;
  }

  lemma SlotsCases<K>(bd: Json, cd: Json, was: Slots<K>, now: Slots<K>, direction: Direction, stack: nat)
    ensures SlotsFate(bd, cd, was, now, stack) == {} <==>
              forall k :: k in was && k in now ==> SlotFate(bd, cd, was, now, k, stack) == {}
    ensures SlotsClean(bd, cd, was, now, direction, stack) <==>
              forall k :: k in was ==> SlotClean(bd, cd, was, now, k, direction, stack)
  {
    hide SlotFate, SlotClean;
    if SlotsFate(bd, cd, was, now, stack) == {} {
      forall k | k in was && k in now ensures SlotFate(bd, cd, was, now, k, stack) == {} {
        SlotRaises(bd, cd, was, now, k, stack);
      }
    }
  }

  lemma HeaderCases(bd: Json, cd: Json, was: Object, now: Object, name: string, stack: nat)
    requires name in was
    ensures name in now ==>
              && HeaderFate(bd, cd, was, now, name, stack) <= HeadersFate(bd, cd, was, now, stack)
              && (Resolve(bd, was[name]).Unresolved? || Resolve(cd, now[name]).Unresolved? ==>
                    HeaderFate(bd, cd, was, now, name, stack) == {UnresolvedReference})
              && (Resolve(bd, was[name]).Resolved? && Resolve(cd, now[name]).Resolved? ==>
                    HeaderFate(bd, cd, was, now, name, stack)
                    == SchemaFate(bd, cd, HeaderSchema(bd, was[name]), HeaderSchema(cd, now[name]), stack))
    ensures HeaderClean(bd, cd, was, now, name, stack) <==>
              && name in now
              && SchemaClean(bd, cd, HeaderSchema(bd, was[name]), HeaderSchema(cd, now[name]), Response, stack)
  {
    hide SchemaFate, SchemaClean, HeaderSchema, Resolve;
    if name in now {
      forall e | e in HeaderFate(bd, cd, was, now, name, stack) ensures e in HeadersFate(bd, cd, was, now, stack) {
      }
    }
  }

  lemma HeadersCases(bd: Json, cd: Json, was: Object, now: Object, stack: nat)
    ensures HeadersFate(bd, cd, was, now, stack) == {} <==>
              forall k :: k in was && k in now ==> HeaderFate(bd, cd, was, now, k, stack) == {}
    ensures HeadersClean(bd, cd, was, now, stack) <==>
              forall k :: k in was ==> HeaderClean(bd, cd, was, now, k, stack)
  {
    hide HeaderFate, HeaderClean;
    if HeadersFate(bd, cd, was, now, stack) == {} {
      forall k | k in was && k in now ensures HeaderFate(bd, cd, was, now, k, stack) == {} {
        HeaderCases(bd, cd, was, now, k, stack);
      }
    }
  }

  lemma StatusCases(bd: Json, cd: Json, was: Object, now: Object, status: string, stack: nat)
    requires status in was
    ensures status in now ==>
              && StatusFate(bd, cd, was, now, status, stack) == ResponseFate(bd, cd, was[status], now[status], stack)
              && StatusFate(bd, cd, was, now, status, stack) <= ResponsesFate(bd, cd, was, now, stack)
    ensures StatusClean(bd, cd, was, now, status, stack) <==>
              status in now && ResponseClean(bd, cd, was[status], now[status], stack)
  {
    hide ResponseFate, ResponseClean;
    if status in now {
      forall e | e in StatusFate(bd, cd, was, now, status, stack)
        ensures e in ResponsesFate(bd, cd, was, now, stack)
      {
      }
    }
  }

  lemma ResponsesCases(bd: Json, cd: Json, was: Object, now: Object, stack: nat)
    ensures ResponsesFate(bd, cd, was, now, stack) == {} <==>
              forall k :: k in was && k in now ==> StatusFate(bd, cd, was, now, k, stack) == {}
    ensures ResponsesClean(bd, cd, was, now, stack) <==>
              forall k :: k in was ==> StatusClean(bd, cd, was, now, k, stack)
  {
    hide StatusFate, StatusClean;
    if ResponsesFate(bd, cd, was, now, stack) == {} {
      forall k | k in was && k in now ensures StatusFate(bd, cd, was, now, k, stack) == {} {
        StatusCases(bd, cd, was, now, k, stack);
      }
    }
  }

  lemma VerbCases(bd: Json, cd: Json, was: Object, now: Object, verb: string, stack: nat)
    requires verb in Verbs(was)
    ensures verb in now ==>
              && VerbFate(bd, cd, was, now, verb, stack)
                 == OperationFate(bd, cd, OperationOf(was, verb), OperationOf(now, verb), stack)
              && VerbFate(bd, cd, was, now, verb, stack) <= PathFate(bd, cd, was, now, stack)
    ensures VerbClean(bd, cd, was, now, verb, stack) <==>
              verb in now && OperationClean(bd, cd, OperationOf(was, verb), OperationOf(now, verb), stack)
  {
    hide OperationFate, OperationClean;
    if verb in now {
      forall e | e in VerbFate(bd, cd, was, now, verb, stack) ensures e in PathFate(bd, cd, was, now, stack) {
      }
    }
  }

  lemma PathCases(bd: Json, cd: Json, was: Object, now: Object, stack: nat)
    ensures PathFate(bd, cd, was, now, stack) == {} <==>
              forall v :: v in Verbs(was) && v in now ==> VerbFate(bd, cd, was, now, v, stack) == {}
    ensures PathClean(bd, cd, was, now, stack) <==>
              forall v :: v in Verbs(was) ==> VerbClean(bd, cd, was, now, v, stack)
  {
    hide VerbFate, VerbClean, Verbs;
    if PathFate(bd, cd, was, now, stack) == {} {
      forall v | v in Verbs(was) && v in now ensures VerbFate(bd, cd, was, now, v, stack) == {} {
        VerbCases(bd, cd, was, now, v, stack);
      }
    }
  }

  lemma ItemCases(bd: Json, cd: Json, path: string, stack: nat)
    requires path in Paths(bd)
    ensures path in Paths(cd) ==>
              && ItemFate(bd, cd, path, stack) == PathFate(bd, cd, PathItem(bd, path), PathItem(cd, path), stack)
              && ItemFate(bd, cd, path, stack) <= PathsFate(bd, cd, stack)
    ensures ItemClean(bd, cd, path, stack) <==>
              path in Paths(cd) && PathClean(bd, cd, PathItem(bd, path), PathItem(cd, path), stack)
  {
    hide PathFate, PathClean, Paths, PathItem;
    if path in Paths(cd) {
      forall e | e in ItemFate(bd, cd, path, stack) ensures e in PathsFate(bd, cd, stack) {
      }
    }
  }

  lemma PathsCases(bd: Json, cd: Json, stack: nat)
    ensures PathsFate(bd, cd, stack) == {} <==>
              forall p :: p in Paths(bd) && p in Paths(cd) ==> ItemFate(bd, cd, p, stack) == {}
    ensures PathsClean(bd, cd, stack) <==> forall p :: p in Paths(bd) ==> ItemClean(bd, cd, p, stack)
  {
    hide ItemFate, ItemClean, Paths;
    if PathsFate(bd, cd, stack) == {} {
      forall p | p in Paths(bd) && p in Paths(cd) ensures ItemFate(bd, cd, p, stack) == {} {
        ItemCases(bd, cd, p, stack);
      }
    }
  }
}
