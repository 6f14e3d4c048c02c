/** The changes that `_compare_schema` of scripts/openapi_compatibility.py finds between two schemas: where they are
    and what they are. */
module SchemaChanges {
  import opened Json
  import opened Reference
  import opened SchemaRules

  /** Where a change is: the keys on the way down from the document. */
  type Location = seq<Json>

  function Under(at: Location, key: string): Location {
    at + [Str(key)]
  }

  /** What a change is; the source words it in the message. */
  datatype Kind =
    | SchemaRemoved | TypeChanged | TypeAdded | TypeRemoved | ConstChanged | ValueChanged
    | EnumChanged | EnumAdded | EnumRemoved | RequiredAdded | RequiredRemoved
    | PropertyRemoved | BoundChanged | BoundAdded | BoundRemoved | PatternChanged | CompositionChanged
    | AdditionalForbidden | AdditionalAllowed
    | PathRemoved | OperationRemoved | ProblemCodeRemoved | SecuritySchemeRemoved | SecuritySchemeChanged
    | OperationIdChanged | SecurityChanged | RequestBodyRemoved | RequestBodyAdded | RequestBodyRequired
    | ResponseRemoved | HeaderRemoved | ParameterRemoved | ParameterAdded | ParameterRequired | MediaTypeRemoved

  datatype Change = Change(location: Location, kind: Kind)

  // ---- one pair of resolved schemas ----

  function TypesFound(b: Object, c: Object, at: Location, direction: Direction): set<Change> {
    var was, now := Types(Get(b, "type")), Types(Get(c, "type"));
    if was != multiset{} && now != multiset{} then if was == now then {} else {Change(at, TypeChanged)}
    else if now != multiset{} then if direction.Request? then {Change(at, TypeAdded)} else {}
    else if was != multiset{} then if direction.Response? then {Change(at, TypeRemoved)} else {}
    else {}
  }

  function ConstFound(b: Object, c: Object, at: Location): set<Change> {
    if "const" in b && !PyEq(b["const"], Get(c, "const")) then {Change(at, ConstChanged)} else {}
  }

  /** One change for every keyword whose values differ. */
  function KeywordsFound(b: Object, c: Object, at: Location, keywords: seq<string>, kind: Kind): set<Change> {
    set k | k in keywords && !SameKeyword(b, c, k) :: Change(Under(at, k), kind)
  }

  function EnumFound(b: Object, c: Object, at: Location, direction: Direction): set<Change> {
    var was, now := Get(b, "enum"), Get(c, "enum");
    if was.Arr? && now.Arr? then
      var p := if direction.Request? then was.items else now.items;
      var q := if direction.Request? then now.items else was.items;
      if forall x :: x in p ==> x in q then {} else {Change(at, EnumChanged)}
    else if was.Arr? && now == Null && direction.Response? then {Change(at, EnumRemoved)}
    else if was == Null && now.Arr? && direction.Request? then {Change(at, EnumAdded)}
    else {}
  }

  /** One change for every name. */
  function EachFound(names: set<string>, at: Location, kind: Kind): set<Change> {
    set name | name in names :: Change(Under(at, name), kind)
  }

  function RequiredFound(b: Object, c: Object, at: Location, direction: Direction): set<Change> {
    EachFound(Required(c) - Required(b), Under(at, "required"), RequiredAdded)
    + if direction.Response? then EachFound(Required(b) - Required(c), Under(at, "required"), RequiredRemoved) else {}
  }

  function BoundFound(was: Json, now: Json, at: Location, direction: Direction, lower: bool): set<Change> {
    if IsNumber(was) && IsNumber(now) then
      var tighter := if lower then NumberOf(now) > NumberOf(was) else NumberOf(now) < NumberOf(was);
      var looser := if lower then NumberOf(now) < NumberOf(was) else NumberOf(now) > NumberOf(was);
      if (direction.Request? && tighter) || (direction.Response? && looser) then {Change(at, BoundChanged)} else {}
    else if was == Null && IsNumber(now) && direction.Request? then {Change(at, BoundAdded)}
    else if IsNumber(was) && now == Null && direction.Response? then {Change(at, BoundRemoved)}
    else {}
  }

  function BoundFoundAt(b: Object, c: Object, at: Location, direction: Direction, keyword: string, lower: bool)
    : set<Change>
  {
    BoundFound(Get(b, keyword), Get(c, keyword), Under(at, keyword), direction, lower)
  }

  function BoundsFoundFor(b: Object, c: Object, at: Location, direction: Direction, keywords: seq<string>, lower: bool)
    : set<Change>
  {
    set k, x | k in keywords && x in BoundFoundAt(b, c, at, direction, k, lower) :: x
  }

  function PatternFound(b: Object, c: Object, at: Location): set<Change> {
    if SameKeyword(b, c, "pattern") then {} else {Change(Under(at, "pattern"), PatternChanged)}
  }

  function BoundsFound(b: Object, c: Object, at: Location, direction: Direction): set<Change> {
    BoundsFoundFor(b, c, at, direction, MINIMUMS, true) + BoundsFoundFor(b, c, at, direction, MAXIMUMS, false)
    + PatternFound(b, c, at)
  }

  function AdditionalFound(b: Object, c: Object, at: Location, direction: Direction): set<Change> {
    if direction.Request? && Additional(b) != Bool(false) && Additional(c) == Bool(false) then
      {Change(at, AdditionalForbidden)}
    else if direction.Response? && Additional(b) == Bool(false) && Additional(c) != Bool(false) then
      {Change(at, AdditionalAllowed)}
    else {}
  }

  /** The keywords that concern the pair alone, up to `required`. */
  function AssertionsFound(b: Object, c: Object, at: Location, direction: Direction): set<Change> {
    TypesFound(b, c, at, direction) + ConstFound(b, c, at) + KeywordsFound(b, c, at, MEDIA_KEYWORDS, ValueChanged)
    + EnumFound(b, c, at, direction) + RequiredFound(b, c, at, direction)
  }

  // ---- the whole walk ----

  function SchemaFound(bd: Json, cd: Json, b: Json, c: Json, at: Location, direction: Direction, stack: nat)
    : set<Change>
    decreases stack, 0
  {
    if stack == 0 || b == Null then {}
    else if c == Null then {Change(at, SchemaRemoved)}
    else if !Descends(bd, cd, b, c) then {}
    else ResolvedFound(bd, cd, ResolvedFields(bd, b), ResolvedFields(cd, c), at, direction, stack - 1)
  }

  function ResolvedFound(bd: Json, cd: Json, b: Object, c: Object, at: Location, direction: Direction, stack: nat)
    : set<Change>
    decreases stack, 3
  {
    AssertionsFound(b, c, at, direction) + PropertiesFound(bd, cd, b, c, at, direction, stack)
    + BoundsFound(b, c, at, direction) + KeywordsFound(b, c, at, COMPOSITIONS, CompositionChanged)
    + ItemsFound(bd, cd, b, c, at, direction, stack) + AdditionalFound(b, c, at, direction)
  }

  function PropertyFound(bd: Json, cd: Json, b: Object, c: Object, name: string, at: Location, direction: Direction,
                         stack: nat): set<Change>
    requires name in Properties(b)
    decreases stack, 1
  {
    var place := Under(Under(at, "properties"), name);
    if name !in Properties(c) then {Change(place, PropertyRemoved)}
    else SchemaFound(bd, cd, Properties(b)[name], Properties(c)[name], place, direction, stack)
  }

  function PropertiesFound(bd: Json, cd: Json, b: Object, c: Object, at: Location, direction: Direction, stack: nat)
    : set<Change>
    decreases stack, 2
  {
    set k, x | k in Properties(b) && x in PropertyFound(bd, cd, b, c, k, at, direction, stack) :: x
  }

  function ItemsFound(bd: Json, cd: Json, b: Object, c: Object, at: Location, direction: Direction, stack: nat)
    : set<Change>
    decreases stack, 1
  {
    if "items" in b then SchemaFound(bd, cd, b["items"], Get(c, "items"), Under(at, "items"), direction, stack) else {}
  }

  // ---- nothing is found exactly between clean schemas ----

  lemma TypesEmpty(b: Object, c: Object, at: Location, direction: Direction)
    ensures TypesFound(b, c, at, direction) == {} <==> TypesClean(b, c, direction)
  {
  }

  lemma EnumEmpty(b: Object, c: Object, at: Location, direction: Direction)
    ensures EnumFound(b, c, at, direction) == {} <==> EnumClean(b, c, direction)
  {
    var was, now := Get(b, "enum"), Get(c, "enum");
    if was.Arr? && now.Arr? {
      Included(was.items, now.items);
      Included(now.items, was.items);
    }
  }

  lemma Included(p: seq<Json>, q: seq<Json>)
    ensures (set x <- p) <= (set x <- q) <==> forall x :: x in p ==> x in q
  {
    var ps, qs := (set x <- p), (set x <- q);
    if ps <= qs {
      forall x | x in p ensures x in q {
        assert x in ps && x in qs;
      }
    }
  }

  lemma EachEmpty(names: set<string>, at: Location, kind: Kind)
    ensures EachFound(names, at, kind) == {} <==> names == {}
  {
    if names != {} {
      var name :| name in names;
      assert Change(Under(at, name), kind) in EachFound(names, at, kind);
    }
  }

  lemma EmptyDifference<T>(a: set<T>, b: set<T>)
    ensures a - b == {} <==> a <= b
  {
    if a - b == {} {
      forall x | x in a ensures x in b {
        assert x !in a - b;
      }
    }
  }

  lemma RequiredEmpty(b: Object, c: Object, at: Location, direction: Direction)
    ensures RequiredFound(b, c, at, direction) == {} <==> RequiredClean(b, c, direction)
  {
    hide EachFound, Required;
    EachEmpty(Required(c) - Required(b), Under(at, "required"), RequiredAdded);
    EachEmpty(Required(b) - Required(c), Under(at, "required"), RequiredRemoved);
    EmptyDifference(Required(c), Required(b));
    EmptyDifference(Required(b), Required(c));
  }

  lemma KeywordsEmpty(b: Object, c: Object, at: Location, keywords: seq<string>, kind: Kind)
    ensures KeywordsFound(b, c, at, keywords, kind) == {} <==> SameKeywords(b, c, keywords)
  {
    hide SameKeyword;
    var found := KeywordsFound(b, c, at, keywords, kind);
    if !SameKeywords(b, c, keywords) {
      var i :| 0 <= i < |keywords| && !SameKeyword(b, c, keywords[i]);
      assert keywords[i] in keywords;
      assert Change(Under(at, keywords[i]), kind) in found;
    }
  }

  lemma BoundsForEmpty(b: Object, c: Object, at: Location, direction: Direction, keywords: seq<string>, lower: bool)
    ensures BoundsFoundFor(b, c, at, direction, keywords, lower) == {} <==>
              forall i :: 0 <= i < |keywords| ==> BoundClean(Get(b, keywords[i]), Get(c, keywords[i]), direction, lower)
  {
    hide BoundFoundAt;
    var found := BoundsFoundFor(b, c, at, direction, keywords, lower);
    forall k ensures BoundFoundAt(b, c, at, direction, k, lower) == {} <==>
                       BoundClean(Get(b, k), Get(c, k), direction, lower)
    {
      BoundEmpty(b, c, at, direction, k, lower);
    }
    forall i | 0 <= i < |keywords| ensures BoundFoundAt(b, c, at, direction, keywords[i], lower) <= found {
      assert keywords[i] in keywords;
    }
  }

  lemma BoundEmpty(b: Object, c: Object, at: Location, direction: Direction, keyword: string, lower: bool)
    ensures BoundFoundAt(b, c, at, direction, keyword, lower) == {} <==>
              BoundClean(Get(b, keyword), Get(c, keyword), direction, lower)
  {
  }

  lemma BoundsEmpty(b: Object, c: Object, at: Location, direction: Direction)
    ensures BoundsFound(b, c, at, direction) == {} <==> BoundsClean(b, c, direction)
  {
    hide BoundsFoundFor, SameKeyword, BoundClean;
    BoundsForEmpty(b, c, at, direction, MINIMUMS, true);
    BoundsForEmpty(b, c, at, direction, MAXIMUMS, false);
  }

  lemma AssertionsEmpty(b: Object, c: Object, at: Location, direction: Direction)
    ensures AssertionsFound(b, c, at, direction) == {} <==> AssertionsClean(b, c, direction)
  {
    hide TypesFound, TypesClean, KeywordsFound, SameKeywords, EnumFound, EnumClean, RequiredFound, RequiredClean;
    TypesEmpty(b, c, at, direction);
    KeywordsEmpty(b, c, at, MEDIA_KEYWORDS, ValueChanged);
    EnumEmpty(b, c, at, direction);
    RequiredEmpty(b, c, at, direction);
  }

  lemma NodeEmpty(b: Object, c: Object, at: Location, direction: Direction)
    ensures NodeClean(b, c, direction) <==>
              && AssertionsFound(b, c, at, direction) == {} && BoundsFound(b, c, at, direction) == {}
              && KeywordsFound(b, c, at, COMPOSITIONS, CompositionChanged) == {}
              && AdditionalFound(b, c, at, direction) == {}
  {
    hide AssertionsFound, AssertionsClean, BoundsFound, BoundsClean, KeywordsFound, SameKeywords;
    AssertionsEmpty(b, c, at, direction);
    BoundsEmpty(b, c, at, direction);
    KeywordsEmpty(b, c, at, COMPOSITIONS, CompositionChanged);
  }

  /** Nothing is found exactly where the comparison is clean. */
  lemma {:induction false} CleanFindsNothing(bd: Json, cd: Json, b: Json, c: Json, at: Location, direction: Direction,
                                             stack: nat)
    ensures SchemaFound(bd, cd, b, c, at, direction, stack) == {} <==> SchemaClean(bd, cd, b, c, direction, stack)
    decreases stack, 0
  {
    hide ResolvedFound, ResolvedClean, Resolve;
    if stack > 0 && Descends(bd, cd, b, c) {
      CleanFindsNothingBelow(bd, cd, ResolvedFields(bd, b), ResolvedFields(cd, c), at, direction, stack - 1);
    }
  }

  lemma {:induction false} CleanFindsNothingBelow(bd: Json, cd: Json, b: Object, c: Object, at: Location,
                                                  direction: Direction, stack: nat)
    ensures ResolvedFound(bd, cd, b, c, at, direction, stack) == {} <==> ResolvedClean(bd, cd, b, c, direction, stack)
    decreases stack, 3
  {
    hide AssertionsFound, BoundsFound, KeywordsFound, AdditionalFound, PropertiesFound, ItemsFound, NodeClean,
      PropertiesClean, ItemsClean;
    NodeEmpty(b, c, at, direction);
    PropertiesEmpty(bd, cd, b, c, at, direction, stack);
    ItemsEmpty(bd, cd, b, c, at, direction, stack);
  }

  lemma {:induction false} ItemsEmpty(bd: Json, cd: Json, b: Object, c: Object, at: Location, direction: Direction,
                                      stack: nat)
    ensures ItemsFound(bd, cd, b, c, at, direction, stack) == {} <==> ItemsClean(bd, cd, b, c, direction, stack)
    decreases stack, 1
  {
    hide SchemaFound, SchemaClean;
    if "items" in b {
      CleanFindsNothing(bd, cd, b["items"], Get(c, "items"), Under(at, "items"), direction, stack);
    }
  }

  lemma {:induction false} PropertiesEmpty(bd: Json, cd: Json, b: Object, c: Object, at: Location,
                                           direction: Direction, stack: nat)
    ensures PropertiesFound(bd, cd, b, c, at, direction, stack) == {} <==>
              PropertiesClean(bd, cd, b, c, direction, stack)
    decreases stack, 2
  {
    hide PropertyFound, PropertyClean, SchemaFound, SchemaClean;
    forall k | k in Properties(b)
      ensures PropertyFound(bd, cd, b, c, k, at, direction, stack) == {} <==>
                PropertyClean(bd, cd, b, c, k, direction, stack)
      ensures PropertyFound(bd, cd, b, c, k, at, direction, stack) <=
              PropertiesFound(bd, cd, b, c, at, direction, stack)
    {
      PropertyEmpty(bd, cd, b, c, k, at, direction, stack);
    }
  }

  lemma {:induction false} PropertyEmpty(bd: Json, cd: Json, b: Object, c: Object, k: string, at: Location,
                                         direction: Direction, stack: nat)
    requires k in Properties(b)
    ensures PropertyFound(bd, cd, b, c, k, at, direction, stack) == {} <==>
              PropertyClean(bd, cd, b, c, k, direction, stack)
    decreases stack, 1
  {
    hide SchemaFound, SchemaClean;
    if k in Properties(c) {
      CleanFindsNothing(bd, cd, Properties(b)[k], Properties(c)[k], Under(Under(at, "properties"), k), direction,
                        stack);
    }
  }
}
