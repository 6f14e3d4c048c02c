/** What `_compare_schema` of scripts/openapi_compatibility.py reports, and where it fails, as predicates of the
    two documents. The stack budget counts the frames Python still grants to the recursion. */
module SchemaRules {
  import opened Json
  import opened Reference

  datatype Direction = Request | Response

  const MINIMUMS: seq<string> := ["minLength", "minItems", "minProperties", "minimum", "exclusiveMinimum"]
  const MAXIMUMS: seq<string> := ["maxLength", "maxItems", "maxProperties", "maximum", "exclusiveMaximum"]
  const MEDIA_KEYWORDS: seq<string> := ["format", "contentEncoding", "contentMediaType"]
  const COMPOSITIONS: seq<string> := ["allOf", "anyOf", "oneOf", "not"]

  // ---- readers ----

  /** `_types`: the source sorts the tuple, so only the multiset matters. */
  function Types(j: Json): multiset<string> {
    if j.Str? then multiset{j.s} else multiset(Strings(j))
  }

  function Properties(m: Object): Object {
    Fields(Get(m, "properties"))
  }

  function Required(m: Object): set<string> {
    StringSet(Get(m, "required"))
  }

  function Additional(m: Object): Json {
    GetOr(m, "additionalProperties", Bool(true))
  }

  /** The property names the walk descends through. */
  function SharedNames(b: Object, c: Object): set<string> {
    Properties(b).Keys * Properties(c).Keys
  }

  // ---- one pair of resolved schemas ----

  predicate TypesClean(b: Object, c: Object, direction: Direction) {
    var was, now := Types(Get(b, "type")), Types(Get(c, "type"));
    if was != multiset{} && now != multiset{} then was == now
    else if was == multiset{} && now != multiset{} then direction.Response?
    else if was != multiset{} then direction.Request?
    else true
  }

  predicate ConstClean(b: Object, c: Object) {
    "const" in b ==> PyEq(b["const"], Get(c, "const"))
  }

  predicate SameKeyword(b: Object, c: Object, keyword: string) {
    PyEq(Get(b, keyword), Get(c, keyword))
  }

  predicate EnumClean(b: Object, c: Object, direction: Direction) {
    var was, now := Get(b, "enum"), Get(c, "enum");
    if was.Arr? && now.Arr? then
      if direction.Request? then (set x <- was.items) <= (set x <- now.items)
      else (set x <- now.items) <= (set x <- was.items)
    else if was.Arr? && now == Null then direction.Request?
    else if was == Null && now.Arr? then direction.Response?
    else true
  }

  predicate RequiredClean(b: Object, c: Object, direction: Direction) {
    && Required(c) <= Required(b)
    && (direction.Response? ==> Required(b) <= Required(c))
  }

  predicate LowerBoundClean(b: Object, c: Object, keyword: string, direction: Direction) {
    BoundClean(Get(b, keyword), Get(c, keyword), direction, true)
  }

  predicate UpperBoundClean(b: Object, c: Object, keyword: string, direction: Direction) {
    BoundClean(Get(b, keyword), Get(c, keyword), direction, false)
  }

  /** A lower bound may not rise on a request or fall on a response; an upper bound the other way round. */
  predicate BoundClean(was: Json, now: Json, direction: Direction, lower: bool) {
    if IsNumber(was) && IsNumber(now) then
      if direction.Request? == lower then NumberOf(now) <= NumberOf(was) else NumberOf(was) <= NumberOf(now)
    else if was == Null && IsNumber(now) then direction.Response?
    else if IsNumber(was) && now == Null then direction.Request?
    else true
  }

  predicate AdditionalClean(b: Object, c: Object, direction: Direction) {
    && (direction.Request? && Additional(c) == Bool(false) ==> Additional(b) == Bool(false))
    && (direction.Response? && Additional(b) == Bool(false) ==> Additional(c) == Bool(false))
  }

  predicate BoundsClean(b: Object, c: Object, direction: Direction) {
    && (forall i :: 0 <= i < |MINIMUMS| ==> LowerBoundClean(b, c, MINIMUMS[i], direction))
    && (forall i :: 0 <= i < |MAXIMUMS| ==> UpperBoundClean(b, c, MAXIMUMS[i], direction))
    && SameKeyword(b, c, "pattern")
  }

  predicate SameKeywords(b: Object, c: Object, keywords: seq<string>) {
    forall i :: 0 <= i < |keywords| ==> SameKeyword(b, c, keywords[i])
  }

  /** The keywords that concern the pair alone, up to `required`. */
  predicate AssertionsClean(b: Object, c: Object, direction: Direction) {
    && TypesClean(b, c, direction)
    && ConstClean(b, c)
    && SameKeywords(b, c, MEDIA_KEYWORDS)
    && EnumClean(b, c, direction)
    && RequiredClean(b, c, direction)
  }

  /** Nothing is reported for the pair itself, its children apart. */
  predicate NodeClean(b: Object, c: Object, direction: Direction) {
    && AssertionsClean(b, c, direction)
    && BoundsClean(b, c, direction)
    && SameKeywords(b, c, COMPOSITIONS)
    && AdditionalClean(b, c, direction)
  }

  // ---- the whole walk ----

  /** Both sides resolve, so the walk goes on below this pair. */
  predicate Descends(bd: Json, cd: Json, b: Json, c: Json) {
    b != Null && c != Null && Resolve(bd, b).Resolved? && Resolve(cd, c).Resolved?
  }

  /** The exceptions a comparison can end with; empty exactly when it completes. */
  function SchemaFate(bd: Json, cd: Json, b: Json, c: Json, stack: nat): set<Error>
    decreases stack, 0
  {
    if stack == 0 then {StackOverflow}
    else if b == Null || c == Null then {}
    else if !Descends(bd, cd, b, c) then {UnresolvedReference}
    else ResolvedFate(bd, cd, ResolvedFields(bd, b), ResolvedFields(cd, c), stack - 1)
  }

  function ResolvedFate(bd: Json, cd: Json, was: Object, now: Object, stack: nat): set<Error>
    decreases stack, 3
  {
    PropertiesFate(bd, cd, was, now, stack) + ItemsFate(bd, cd, was, now, stack)
  }

  function PropertyFate(bd: Json, cd: Json, was: Object, now: Object, name: string, stack: nat): set<Error>
    requires name in SharedNames(was, now)
    decreases stack, 1
  {
    SchemaFate(bd, cd, Properties(was)[name], Properties(now)[name], stack)
  }

  function PropertiesFate(bd: Json, cd: Json, was: Object, now: Object, stack: nat): set<Error>
    decreases stack, 2
  {
    set k, e | k in SharedNames(was, now) && e in PropertyFate(bd, cd, was, now, k, stack) :: e
  }

  function ItemsFate(bd: Json, cd: Json, was: Object, now: Object, stack: nat): set<Error>
    decreases stack, 1
  {
    if "items" in was then SchemaFate(bd, cd, was["items"], Get(now, "items"), stack) else {}
  }

  /** The comparison reports nothing. */
  predicate SchemaClean(bd: Json, cd: Json, b: Json, c: Json, direction: Direction, stack: nat)
    decreases stack, 0
  {
    if stack == 0 || b == Null then true
    else if c == Null then false
    else if !Descends(bd, cd, b, c) then true
    else ResolvedClean(bd, cd, ResolvedFields(bd, b), ResolvedFields(cd, c), direction, stack - 1)
  }

  predicate ResolvedClean(bd: Json, cd: Json, was: Object, now: Object, direction: Direction, stack: nat)
    decreases stack, 3
  {
    && NodeClean(was, now, direction)
    && PropertiesClean(bd, cd, was, now, direction, stack)
    && ItemsClean(bd, cd, was, now, direction, stack)
  }

  predicate PropertyClean(bd: Json, cd: Json, was: Object, now: Object, name: string, direction: Direction,
                          stack: nat)
    requires name in Properties(was)
    decreases stack, 1
  {
    && name in Properties(now)
    && SchemaClean(bd, cd, Properties(was)[name], Properties(now)[name], direction, stack)
  }

  predicate PropertiesClean(bd: Json, cd: Json, was: Object, now: Object, direction: Direction, stack: nat)
    decreases stack, 2
  {
    forall k :: k in Properties(was) ==> PropertyClean(bd, cd, was, now, k, direction, stack)
  }

  predicate ItemsClean(bd: Json, cd: Json, was: Object, now: Object, direction: Direction, stack: nat)
    decreases stack, 1
  {
    "items" in was ==> SchemaClean(bd, cd, was["items"], Get(now, "items"), direction, stack)
  }

  // ---- the cases of the walk, one level deep ----

  lemma NoStack(bd: Json, cd: Json, b: Json, c: Json)
    ensures SchemaFate(bd, cd, b, c, 0) == {StackOverflow}
  {
  }

  lemma NothingDeclared(bd: Json, cd: Json, c: Json, direction: Direction, stack: nat)
    requires stack > 0
    ensures SchemaFate(bd, cd, Null, c, stack) == {} && SchemaClean(bd, cd, Null, c, direction, stack)
  {
  }

  lemma NothingLeft(bd: Json, cd: Json, b: Json, direction: Direction, stack: nat)
    requires stack > 0 && b != Null
    ensures SchemaFate(bd, cd, b, Null, stack) == {} && !SchemaClean(bd, cd, b, Null, direction, stack)
  {
  }

  lemma DanglingReference(bd: Json, cd: Json, b: Json, c: Json, stack: nat)
    requires stack > 0 && b != Null && c != Null
    requires Resolve(bd, b).Unresolved? || Resolve(cd, c).Unresolved?
    ensures SchemaFate(bd, cd, b, c, stack) == {UnresolvedReference}
  {
  }

  lemma Descent(bd: Json, cd: Json, b: Json, c: Json, direction: Direction, stack: nat)
    requires stack > 0 && Descends(bd, cd, b, c)
    ensures SchemaFate(bd, cd, b, c, stack)
         == ResolvedFate(bd, cd, Fields(Resolve(bd, b).value), Fields(Resolve(cd, c).value), stack - 1)
    ensures SchemaClean(bd, cd, b, c, direction, stack)
       <==> ResolvedClean(bd, cd, Fields(Resolve(bd, b).value), Fields(Resolve(cd, c).value), direction, stack - 1)
  {
  }

  lemma PropertyCases(bd: Json, cd: Json, was: Object, now: Object, name: string, direction: Direction, stack: nat)
    requires name in Properties(was)
    ensures PropertyClean(bd, cd, was, now, name, direction, stack) <==>
              && name in Properties(now)
              && SchemaClean(bd, cd, Properties(was)[name], Properties(now)[name], direction, stack)
    ensures name in Properties(now) ==>
              PropertyFate(bd, cd, was, now, name, stack)
              == SchemaFate(bd, cd, Properties(was)[name], Properties(now)[name], stack)
  {
    hide SchemaFate, SchemaClean;
  }

  lemma PropertyRaises(bd: Json, cd: Json, was: Object, now: Object, name: string, stack: nat)
    requires name in SharedNames(was, now)
    ensures PropertyFate(bd, cd, was, now, name, stack) <= PropertiesFate(bd, cd, was, now, stack)
  {
    hide PropertyFate;
  }

  lemma PropertiesCases(bd: Json, cd: Json, was: Object, now: Object, direction: Direction, stack: nat)
    ensures PropertiesClean(bd, cd, was, now, direction, stack) <==>
              forall k :: k in Properties(was) ==> PropertyClean(bd, cd, was, now, k, direction, stack)
    ensures PropertiesFate(bd, cd, was, now, stack) == {} <==>
              forall k :: k in SharedNames(was, now) ==> PropertyFate(bd, cd, was, now, k, stack) == {}
  {
    hide PropertyFate, PropertyClean;
    if PropertiesFate(bd, cd, was, now, stack) == {} {
      forall k | k in SharedNames(was, now) ensures PropertyFate(bd, cd, was, now, k, stack) == {} {
        PropertyRaises(bd, cd, was, now, k, stack);
      }
    }
  }

  lemma ItemsCases(bd: Json, cd: Json, was: Object, now: Object, direction: Direction, stack: nat)
    ensures "items" in was ==>
              && ItemsFate(bd, cd, was, now, stack) == SchemaFate(bd, cd, was["items"], Get(now, "items"), stack)
              && (ItemsClean(bd, cd, was, now, direction, stack)
                  <==> SchemaClean(bd, cd, was["items"], Get(now, "items"), direction, stack))
  {
    hide SchemaFate, SchemaClean;
  }
}
