/** Changes that break clients and that the checker does not report: why the soundness theorems ask for their
    fragment. */
module Gaps {
  import opened Json
  import opened Reference
  import opened SchemaRules
  import opened SchemaOrder
  import opened Semantics
  import opened Soundness
  import opened DocumentRules
  import opened DocumentOrder
  import opened Calls
  import opened Termination
  import opened Completion

  /** A document that is not consulted. */
  const BLANK: Json := Obj(map[])

  lemma NoReference(doc: Json, m: Object)
    requires "$ref" !in m
    ensures Resolve(doc, Obj(m)) == Resolved(Obj(m))
  {
  }

  /** Schemas without properties and items are compared by their keywords alone. */
  lemma FlatCompatible(bd: Json, cd: Json, b: Object, c: Object, direction: Direction)
    requires "$ref" !in b && "$ref" !in c && "properties" !in b && "items" !in b
    requires NodeClean(b, c, direction)
    ensures Compatible(bd, cd, Obj(b), Obj(c), direction, 1)
  {
    hide SchemaFate, SchemaClean, NodeClean, CompatibleBelow, Compatible, Resolve;
    NoReference(bd, b);
    NoReference(cd, c);
    FlatBelow(bd, cd, b, c, direction);
    CompatibleAscends(bd, cd, Obj(b), Obj(c), direction, 1);
  }

  lemma FlatBelow(bd: Json, cd: Json, b: Object, c: Object, direction: Direction)
    requires "properties" !in b && "items" !in b && NodeClean(b, c, direction)
    ensures CompatibleBelow(bd, cd, b, c, direction, 0)
  {
    hide NodeClean, CompatibleBelow;
    CompatibleFromParts(bd, cd, b, c, direction, 0);
  }

  /** A request `const` is added without a report, although only one value remains acceptable. */
  lemma AddedConstIsSilent(meaning: Meaning, x: Json, v: Json)
    requires !JsonEq(v, x)
    ensures Compatible(BLANK, BLANK, Obj(map[]), Obj(map["const" := x]), Request, 1)
    ensures Accepts(meaning, BLANK, Obj(map[]), v) && !Accepts(meaning, BLANK, Obj(map["const" := x]), v)
  {
    var b: Object, c: Object := map[], map["const" := x];
    SameButConst(b, c);
    FlatCompatible(BLANK, BLANK, b, c, Request);
    Inclusion.SilentSchema(meaning, BLANK, b, v, {});
    EmptyAccepts(meaning, v);
    ConstRejects(meaning, x, v);
  }

  lemma SameButConst(b: Object, c: Object)
    requires b == map[] && c.Keys == {"const"}
    ensures NodeClean(b, c, Request)
  {
    assert forall k :: k != "const" ==> Get(c, k) == Null;
    forall i | 0 <= i < |COMPOSITIONS| ensures SameKeyword(b, c, COMPOSITIONS[i]) {
    }
  }

  lemma EmptyValid(meaning: Meaning, doc: Json, v: Json, u: set<string>)
    ensures Valid(meaning, doc, Obj(map[]), v, u)
  {
    hide Asserts, ValidMembers, ValidItems, ValidCompositions;
    Inclusion.SilentSchema(meaning, doc, map[], v, u);
  }

  lemma EmptyAccepts(meaning: Meaning, v: Json)
    ensures Accepts(meaning, BLANK, Obj(map[]), v)
  {
    hide Valid;
    EmptyValid(meaning, BLANK, v, Refs(BLANK) + Refs(Obj(map[])));
  }

  lemma ConstInvalid(meaning: Meaning, doc: Json, x: Json, v: Json, u: set<string>)
    requires !JsonEq(v, x)
    ensures !Valid(meaning, doc, Obj(map["const" := x]), v, u)
  {
    hide ValidMembers, ValidItems, ValidCompositions;
  }

  lemma ConstRejects(meaning: Meaning, x: Json, v: Json)
    requires !JsonEq(v, x)
    ensures !Accepts(meaning, BLANK, Obj(map["const" := x]), v)
  {
    hide Valid;
    ConstInvalid(meaning, BLANK, x, v, Refs(BLANK) + Refs(Obj(map["const" := x])));
  }

  /** Python's `==` lets the number 1 pass for the constant `true`. */
  lemma TrueForOneIsSilent(meaning: Meaning)
    ensures var b, c := Obj(map["const" := Num(1.0, false)]), Obj(map["const" := Bool(true)]);
            && Compatible(BLANK, BLANK, b, c, Request, 1) && Compatible(BLANK, BLANK, b, c, Response, 1)
            && !Accepts(meaning, BLANK, c, Num(1.0, false))
            && !Accepts(meaning, BLANK, b, Bool(true))
  {
    var b: Object, c: Object := map["const" := Num(1.0, false)], map["const" := Bool(true)];
    hide NodeClean, Accepts, Compatible;
    TrueForOneClean(Request);
    TrueForOneClean(Response);
    FlatCompatible(BLANK, BLANK, b, c, Request);
    FlatCompatible(BLANK, BLANK, b, c, Response);
    ConstRejects(meaning, Bool(true), Num(1.0, false));
    ConstRejects(meaning, Num(1.0, false), Bool(true));
  }

  lemma TrueForOneClean(direction: Direction)
    ensures NodeClean(map["const" := Num(1.0, false)], map["const" := Bool(true)], direction)
  {
    var b: Object, c: Object := map["const" := Num(1.0, false)], map["const" := Bool(true)];
    assert forall k :: k != "const" ==> Get(b, k) == Null && Get(c, k) == Null;
    assert ConstClean(b, c);
  }

  /** A schema that appears where the baseline has none goes unreported, whatever it demands. */
  lemma SchemaFromNowhereIsSilent(bd: Json, cd: Json, c: Json, direction: Direction, stack: nat)
    requires stack > 0
    ensures Compatible(bd, cd, Null, c, direction, stack)
  {
    CompatibleAbsent(bd, cd, c, direction, stack);
  }

  lemma NullConstClean(b: Object, c: Object, direction: Direction)
    requires b == map["const" := Null] && c == map[]
    ensures NodeClean(b, c, direction)
  {
    assert forall k :: Get(b, k) == Null && Get(c, k) == Null;
  }

  /** On a response the baseline's `const: null` may be dropped without a report. */
  lemma DroppedNullConstIsSilent(meaning: Meaning, v: Json)
    requires v != Null
    ensures Compatible(BLANK, BLANK, Obj(map["const" := Null]), Obj(map[]), Response, 1)
    ensures Accepts(meaning, BLANK, Obj(map[]), v) && !Accepts(meaning, BLANK, Obj(map["const" := Null]), v)
  {
    var b: Object, c: Object := map["const" := Null], map[];
    NullConstClean(b, c, Response);
    FlatCompatible(BLANK, BLANK, b, c, Response);
    EmptyAccepts(meaning, v);
    ConstRejects(meaning, Null, v);
  }

  /** A document whose only member is one schema, and the reference to it. */
  function Holding(schema: Json): Json {
    Obj(map["A" := schema])
  }

  const TO_A: Json := Obj(map["$ref" := Str("#/A")])

  /** The reference to a member of the document. */
  lemma TargetHeld(doc: Json)
    requires "A" in Fields(doc)
    ensures Local("#/A") && Target(doc, "#/A") == Resolved(Fields(doc)["A"])
  {
    assert Pointer(["A"]) == "#/A" by {
      assert EscapeAll(["A"]) == ["A"] by {
        assert Escape("A") == "A" by {
          assert "A"[1..] == "";
        }
      }
    }
    PointerReachesPath(doc, ["A"]);
    assert At(doc, ["A"]) == At(Fields(doc)["A"], []) by {
      assert ["A"][1..] == [];
    }
  }

  lemma TargetOfA(schema: Json)
    ensures Local("#/A") && Target(Holding(schema), "#/A") == Resolved(schema)
  {
    TargetHeld(Holding(schema));
  }

  /** A reference accepts what its target accepts. */
  lemma ThroughA(meaning: Meaning, doc: Json, v: Json, unseen: set<string>)
    requires "A" in Fields(doc) && "#/A" in unseen
    ensures Valid(meaning, doc, TO_A, v, unseen) <==> Valid(meaning, doc, Fields(doc)["A"], v, unseen - {"#/A"})
  {
    hide Asserts, ValidMembers, ValidItems, ValidCompositions, Target;
    TargetHeld(doc);
    Inclusion.SilentSchema(meaning, doc, TO_A.fields, v, unseen);
  }

  const ALL_OF_A: Json := Obj(map["allOf" := Arr([TO_A])])

  lemma RefsOfAllOfA()
    ensures "#/A" in Refs(ALL_OF_A)
  {
    var list := Arr([TO_A]);
    ElementRefs(list);
    assert TO_A == Elements(list)[0] && TO_A in Elements(list);
    RefAmongRefs(TO_A);
    MemberRefs(ALL_OF_A.fields, "allOf");
  }

  lemma AllOfHolds(meaning: Meaning, doc: Json, v: Json, unseen: set<string>)
    ensures Valid(meaning, doc, ALL_OF_A, v, unseen) <==> Valid(meaning, doc, TO_A, v, unseen)
  {
    var m := ALL_OF_A.fields;
    OnlyAllOf(meaning, doc, m, v);
    AllOfOne(meaning, doc, v, unseen);
  }

  lemma AllOfOne(meaning: Meaning, doc: Json, v: Json, unseen: set<string>)
    ensures ValidCompositions(meaning, doc, ALL_OF_A.fields, v, unseen) <==> Valid(meaning, doc, TO_A, v, unseen)
  {
    hide Valid;
    var m := ALL_OF_A.fields;
    assert "anyOf" !in m && "oneOf" !in m && "not" !in m;
    var at := ValidAt(meaning, doc, m["allOf"], v, unseen);
    if Valid(meaning, doc, TO_A, v, unseen) {
      assert Elements(m["allOf"]) == [TO_A] && Elements(m["allOf"])[0] == TO_A;
      assert 0 in at;
      assert at == {0};
    } else {
      assert at == {};
    }
  }

  lemma OnlyAllOf(meaning: Meaning, doc: Json, m: Object, v: Json)
    requires m.Keys == {"allOf"}
    ensures Asserts(meaning, m, v) && ValidMembers(meaning, doc, m, v) && ValidItems(meaning, doc, m, v)
  {
    hide Asserts, ValidMembers, ValidItems;
    OnlyAllOfAsserts(meaning, m, v);
    NoMembers(meaning, doc, m, v);
    NoItems(meaning, doc, m, v);
  }

  lemma NoItems(meaning: Meaning, doc: Json, m: Object, v: Json)
    requires "items" !in m && "prefixItems" !in m
    ensures ValidItems(meaning, doc, m, v)
  {
    hide Accepts;
  }

  lemma NoMembers(meaning: Meaning, doc: Json, m: Object, v: Json)
    requires "properties" !in m && "patternProperties" !in m && "additionalProperties" !in m
    ensures ValidMembers(meaning, doc, m, v)
  {
    hide Accepts;
    if v.Obj? {
      forall k | k in v.fields ensures Accepts(meaning, doc, Bool(true), v.fields[k]) {
        Inclusion.OpenAccepts(meaning, doc, Bool(true), v.fields[k]);
      }
    }
  }

  lemma AllOfIsOpaque(m: Object)
    requires m.Keys == {"allOf"}
    ensures forall k :: k in OPAQUE_KEYWORDS ==> Get(m, k) == Null
  {
    assert "allOf" !in UNREAD_KEYWORDS;
    assert "allOf" !in {"pattern", "format", "contentEncoding", "contentMediaType"};
    forall k | k in OPAQUE_KEYWORDS ensures Get(m, k) == Null {
      assert k !in m.Keys;
    }
  }

  lemma AllOfIsUnbounded(m: Object)
    requires m.Keys == {"allOf"}
    ensures forall i :: 0 <= i < |MINIMUMS| ==> Get(m, MINIMUMS[i]) == Null
    ensures forall i :: 0 <= i < |MAXIMUMS| ==> Get(m, MAXIMUMS[i]) == Null
  {
  }

  lemma OnlyAllOfAsserts(meaning: Meaning, m: Object, v: Json)
    requires m.Keys == {"allOf"}
    ensures Asserts(meaning, m, v)
  {
    hide HasType, Measure, JsonEq, Judged;
    AllOfIsOpaque(m);
    AllOfIsUnbounded(m);
    assert "type" !in m && "const" !in m && "enum" !in m && "required" !in m;
  }

  /** Compositions are compared as text: a reference inside one may come to mean something narrower. */
  lemma ReferenceInCompositionIsSilent(meaning: Meaning, x: Json, v: Json, direction: Direction)
    requires !JsonEq(v, x)
    ensures var bd, cd := Holding(Obj(map[])), Holding(Obj(map["const" := x]));
            && Compatible(bd, cd, ALL_OF_A, ALL_OF_A, direction, 1)
            && Accepts(meaning, bd, ALL_OF_A, v) && !Accepts(meaning, cd, ALL_OF_A, v)
  {
    hide Valid;
    var bd, cd := Holding(Obj(map[])), Holding(Obj(map["const" := x]));
    NodeReflexive(ALL_OF_A.fields, direction);
    FlatCompatible(bd, cd, ALL_OF_A.fields, ALL_OF_A.fields, direction);
    RefsOfAllOfA();
    forall doc | doc == bd || doc == cd ensures "#/A" in Refs(doc) + Refs(ALL_OF_A) {
    }
    var bu, cu := Refs(bd) + Refs(ALL_OF_A), Refs(cd) + Refs(ALL_OF_A);
    AllOfHolds(meaning, bd, v, bu);
    AllOfHolds(meaning, cd, v, cu);
    ThroughA(meaning, bd, v, bu);
    ThroughA(meaning, cd, v, cu);
    EmptyValid(meaning, bd, v, bu - {"#/A"});
    ConstInvalid(meaning, cd, x, v, cu - {"#/A"});
  }

  /** A property the baseline left open may be given a schema on a request without a report. */
  lemma NewPropertyIsSilent(meaning: Meaning, x: Json, y: Json, name: string)
    requires !JsonEq(y, x)
    ensures var c := Obj(map["properties" := Obj(map[name := Obj(map["const" := x])])]);
            var v := Obj(map[name := y]);
            && Compatible(BLANK, BLANK, Obj(map[]), c, Request, 1)
            && Accepts(meaning, BLANK, Obj(map[]), v) && !Accepts(meaning, BLANK, c, v)
  {
    hide Valid, Accepts;
    var b: Object := map[];
    var c: Object := map["properties" := Obj(map[name := Obj(map["const" := x])])];
    var v := Obj(map[name := y]);
    SilentClean(b, c, Request);
    FlatCompatible(BLANK, BLANK, b, c, Request);
    EmptyAccepts(meaning, v);
    ConstRejects(meaning, x, y);
    assert Properties(c)[name] == Obj(map["const" := x]);
    assert !ValidMembers(meaning, BLANK, c, v) by {
      assert name in v.fields && v.fields[name] == y;
    }
    MembersNeeded(meaning, BLANK, c, v);
  }

  /** An element schema may be added on a request without a report. */
  lemma AddedItemsIsSilent(meaning: Meaning, x: Json, y: Json)
    requires !JsonEq(y, x)
    ensures var c := Obj(map["items" := Obj(map["const" := x])]);
            && Compatible(BLANK, BLANK, Obj(map[]), c, Request, 1)
            && Accepts(meaning, BLANK, Obj(map[]), Arr([y])) && !Accepts(meaning, BLANK, c, Arr([y]))
  {
    hide Valid, Accepts;
    var b: Object, c: Object := map[], map["items" := Obj(map["const" := x])];
    hide NodeClean, ValidItems;
    ItemsOnlyClean(b, c);
    FlatCompatible(BLANK, BLANK, b, c, Request);
    EmptyAccepts(meaning, Arr([y]));
    ConstRejects(meaning, x, y);
    FirstItemInvalid(meaning, c, y);
    ItemsNeeded(meaning, BLANK, c, Arr([y]));
  }

  lemma ItemsOnlyClean(b: Object, c: Object)
    requires b == map[] && c.Keys == {"items"}
    ensures NodeClean(b, c, Request)
  {
    assert forall k :: k != "items" ==> Get(c, k) == Null;
  }

  lemma FirstItemInvalid(meaning: Meaning, m: Object, y: Json)
    requires m.Keys == {"items"} && !Accepts(meaning, BLANK, m["items"], y)
    ensures !ValidItems(meaning, BLANK, m, Arr([y]))
  {
    hide Accepts;
    assert Arr([y]).items[0] == y;
  }

  lemma ItemsNeeded(meaning: Meaning, doc: Json, m: Object, v: Json)
    requires !ValidItems(meaning, doc, m, v)
    ensures !Accepts(meaning, doc, Obj(m), v)
  {
    hide Asserts, ValidMembers, ValidItems, ValidCompositions;
  }

  /** Only the value `false` of `additionalProperties` is looked at: on a request any schema may take its place. */
  lemma AdditionalSchemaIsSilent(meaning: Meaning, x: Json, y: Json, name: string)
    requires !JsonEq(y, x)
    ensures var c := Obj(map["additionalProperties" := Obj(map["const" := x])]);
            var v := Obj(map[name := y]);
            && Compatible(BLANK, BLANK, Obj(map[]), c, Request, 1)
            && Accepts(meaning, BLANK, Obj(map[]), v) && !Accepts(meaning, BLANK, c, v)
  {
    hide Valid, Accepts;
    var b: Object, c: Object := map[], map["additionalProperties" := Obj(map["const" := x])];
    var v := Obj(map[name := y]);
    SilentClean(b, c, Request);
    FlatCompatible(BLANK, BLANK, b, c, Request);
    EmptyAccepts(meaning, v);
    ConstRejects(meaning, x, y);
    assert name !in Properties(c) && Additional(c) == Obj(map["const" := x]);
    assert !ValidMembers(meaning, BLANK, c, v) by {
      assert name in v.fields && v.fields[name] == y;
    }
    MembersNeeded(meaning, BLANK, c, v);
  }

  /** The schema `false` reads as one without keywords: a request that accepts nothing goes unreported. */
  lemma FalseSchemaIsSilent(meaning: Meaning, v: Json)
    ensures Compatible(BLANK, BLANK, Obj(map[]), Bool(false), Request, 1)
    ensures Accepts(meaning, BLANK, Obj(map[]), v) && !Accepts(meaning, BLANK, Bool(false), v)
  {
    hide NodeClean, CompatibleBelow, Compatible;
    var b: Object := map[];
    NoReference(BLANK, b);
    assert Resolve(BLANK, Bool(false)) == Resolved(Bool(false));
    NodeReflexive(b, Request);
    FlatBelow(BLANK, BLANK, b, b, Request);
    CompatibleAscends(BLANK, BLANK, Obj(b), Bool(false), Request, 1);
    EmptyAccepts(meaning, v);
  }

  /** On a response a new property escapes a baseline that allows no others. */
  lemma NewResponsePropertyIsSilent(meaning: Meaning, name: string, y: Json)
    ensures var b := Obj(map["additionalProperties" := Bool(false)]);
            var c := Obj(map["additionalProperties" := Bool(false), "properties" := Obj(map[name := Bool(true)])]);
            && Compatible(BLANK, BLANK, b, c, Response, 1)
            && Accepts(meaning, BLANK, c, Obj(map[name := y])) && !Accepts(meaning, BLANK, b, Obj(map[name := y]))
  {
    hide Valid, Accepts, NodeClean, Compatible;
    var b: Object := map["additionalProperties" := Bool(false)];
    var c: Object := map["additionalProperties" := Bool(false), "properties" := Obj(map[name := Bool(true)])];
    var v := Obj(map[name := y]);
    SilentClean(b, c, Response);
    FlatCompatible(BLANK, BLANK, b, c, Response);
    BooleanSchemas(meaning, y);
    assert !ValidMembers(meaning, BLANK, b, v) by {
      assert name in v.fields && v.fields[name] == y && name !in Properties(b);
    }
    MembersNeeded(meaning, BLANK, b, v);
    OnlyMembers(meaning, c, name, y);
  }

  lemma NullKeywords(b: Object, c: Object, keywords: seq<string>)
    requires forall i :: 0 <= i < |keywords| ==> Get(b, keywords[i]) == Null && Get(c, keywords[i]) == Null
    ensures SameKeywords(b, c, keywords)
  {
  }

  lemma OpaqueKeywords()
    ensures "pattern" in OPAQUE_KEYWORDS
    ensures forall i :: 0 <= i < |MEDIA_KEYWORDS| ==> MEDIA_KEYWORDS[i] in OPAQUE_KEYWORDS
  {
  }

  lemma SilentBoundsClean(b: Object, c: Object, direction: Direction)
    requires Inclusion.NoAssertions(b) && Inclusion.NoAssertions(c)
    ensures BoundsClean(b, c, direction)
  {
    hide Inclusion.NoAssertions, Get;
    Inclusion.SilentBounds(b);
    Inclusion.SilentBounds(c);
    Inclusion.SilentOpaque(b);
    Inclusion.SilentOpaque(c);
    OpaqueKeywords();
  }

  lemma SilentAssertionsClean(b: Object, c: Object, direction: Direction)
    requires Inclusion.NoAssertions(b) && Inclusion.NoAssertions(c)
    ensures AssertionsClean(b, c, direction)
  {
    hide Inclusion.NoAssertions, SameKeywords;
    Inclusion.SilentOpaque(b);
    Inclusion.SilentOpaque(c);
    OpaqueKeywords();
    NullKeywords(b, c, MEDIA_KEYWORDS);
  }

  /** Without assertions on either side only `additionalProperties` can be reported. */
  lemma SilentClean(b: Object, c: Object, direction: Direction)
    requires Inclusion.NoAssertions(b) && Inclusion.NoAssertions(c) && AdditionalClean(b, c, direction)
    ensures NodeClean(b, c, direction)
  {
    hide Inclusion.NoAssertions, AdditionalClean, AssertionsClean, BoundsClean, SameKeywords;
    SilentAssertionsClean(b, c, direction);
    SilentBoundsClean(b, c, direction);
    NoCompositions(b);
    NoCompositions(c);
    NullKeywords(b, c, COMPOSITIONS);
  }

  lemma NoCompositions(m: Object)
    requires Inclusion.NoAssertions(m)
    ensures forall i :: 0 <= i < |COMPOSITIONS| ==> Get(m, COMPOSITIONS[i]) == Null
  {
    assert "allOf" !in m && "anyOf" !in m && "oneOf" !in m && "not" !in m;
  }

  lemma BooleanSchemas(meaning: Meaning, y: Json)
    ensures Accepts(meaning, BLANK, Bool(true), y) && !Accepts(meaning, BLANK, Bool(false), y)
  {
  }

  lemma OnlyMembers(meaning: Meaning, m: Object, name: string, y: Json)
    requires Inclusion.NoAssertions(m) && "$ref" !in m && Properties(m) == map[name := Bool(true)]
    ensures Accepts(meaning, BLANK, Obj(m), Obj(map[name := y]))
  {
    hide Asserts, ValidCompositions, Accepts;
    var v := Obj(map[name := y]);
    Inclusion.SilentAssertions(meaning, m, v);
    Inclusion.SilentCompositions(meaning, BLANK, m, v, Refs(BLANK) + Refs(Obj(m)));
    BooleanSchemas(meaning, y);
    MembersSuffice(meaning, m, v);
  }

  lemma MembersSuffice(meaning: Meaning, m: Object, v: Json)
    requires "$ref" !in m && v.Obj? && Asserts(meaning, m, v) && ValidMembers(meaning, BLANK, m, v)
    requires ValidCompositions(meaning, BLANK, m, v, Refs(BLANK) + Refs(Obj(m)))
    ensures Accepts(meaning, BLANK, Obj(m), v)
  {
    hide Asserts, ValidCompositions, ValidMembers;
    assert RefOf(Obj(m)).None?;
    assert ValidItems(meaning, BLANK, m, v);
  }

  lemma MembersNeeded(meaning: Meaning, doc: Json, m: Object, v: Json)
    requires !ValidMembers(meaning, doc, m, v)
    ensures !Accepts(meaning, doc, Obj(m), v)
  {
    hide Asserts, ValidMembers, ValidItems, ValidCompositions;
  }

  function QueryParameter(name: string): Json {
    Obj(map["in" := Str("query"), "name" := Str(name)])
  }

  lemma ParameterThroughA(parameter: Json)
    requires RefOf(parameter).None? && parameter.Obj?
    ensures Resolve(Holding(parameter), TO_A) == Resolved(parameter)
    ensures ParameterMap(Holding(parameter), [TO_A]) == map[(Str("$ref"), Str("#/A")) := parameter.fields]
  {
    hide Target;
    TargetOfA(parameter);
    assert RefOf(TO_A) == Some("#/A");
    assert ResolveFrom(Holding(parameter), parameter, {} + {"#/A"}) == Resolved(parameter);
    assert [TO_A][..0] == [];
    assert KeyOf(TO_A) == (Str("$ref"), Str("#/A"));
  }

  /** A shared reference hides that the parameter behind it was renamed: the old calls are no longer valid. */
  lemma RenamedParameterIsSilent(meaning: Meaning, v: Json)
    ensures var bd, cd := Holding(QueryParameter("old")), Holding(QueryParameter("new"));
            var call: map<ParameterKey, Json> := map[(Str("query"), Str("old")) := v];
            && ParametersQuiet(bd, cd, [TO_A], [TO_A], 1)
            && ArgumentsValid(meaning, bd, [TO_A], call)
            && !ArgumentsValid(meaning, cd, [TO_A], call)
  {
    hide ParametersQuiet, ArgumentsValid, ParameterMap;
    RenamedQuiet();
    RenamedValidity(meaning, v);
  }

  lemma RenamedQuiet()
    ensures ParametersQuiet(Holding(QueryParameter("old")), Holding(QueryParameter("new")), [TO_A], [TO_A], 1)
  {
    hide SchemaFate, SchemaClean, Resolve, SlotsFate, SlotsClean, ParameterMap;
    var was, now := QueryParameter("old"), QueryParameter("new");
    var bd, cd := Holding(was), Holding(now);
    ParameterThroughA(was);
    ParameterThroughA(now);
    var olds, news := ParameterMap(bd, [TO_A]), ParameterMap(cd, [TO_A]);
    assert Get(was.fields, "schema") == Null && Get(now.fields, "required") == Null;
    CompatibleAbsent(bd, cd, Get(now.fields, "schema"), Request, 1);
    SlotsFromEach(bd, cd, ParameterSchemas(olds), ParameterSchemas(news), Request, 1);
  }

  lemma LoneEntryMatches(doc: Json, entry: Json)
    ensures KeysMatchSlots(doc, [entry])
  {
    hide KeyOf, EntrySlot;
  }

  lemma RenamedValidity(meaning: Meaning, v: Json)
    ensures var bd, cd := Holding(QueryParameter("old")), Holding(QueryParameter("new"));
            var call: map<ParameterKey, Json> := map[(Str("query"), Str("old")) := v];
            && ArgumentsValid(meaning, bd, [TO_A], call)
            && !ArgumentsValid(meaning, cd, [TO_A], call)
  {
    hide ArgumentsValid, Holding, QueryParameter;
    SharedParameter(meaning, "old", "old", v);
    SharedParameter(meaning, "new", "old", v);
  }

  /** An argument fits the shared parameter exactly when it has its name. */
  lemma SharedParameter(meaning: Meaning, name: string, given: string, v: Json)
    ensures ArgumentsValid(meaning, Holding(QueryParameter(name)), [TO_A], map[(Str("query"), Str(given)) := v])
       <==> given == name
  {
    hide Resolve, ParameterMap, Accepts, ArgumentsValid, KeysMatchSlots, Holding;
    var parameter := QueryParameter(name);
    var doc := Holding(parameter);
    ParameterThroughA(parameter);
    LoneEntryMatches(doc, TO_A);
    var key := (Str("$ref"), Str("#/A"));
    var declared := ParameterMap(doc, [TO_A]);
    var call: map<ParameterKey, Json> := map[(Str("query"), Str(given)) := v];
    assert Get(parameter.fields, "schema") == Null && Get(parameter.fields, "required") == Null;
    assert key in declared && SlotOf(declared[key]) == (Str("query"), Str(name));
    assert (Str("query"), Str(given)) in call;
    Inclusion.OpenAccepts(meaning, doc, Null, v);
    DictionaryIsFaithful(meaning, doc, [TO_A], call);
  }

  // ---- overriding a shared parameter ----

  const SLOT: ParameterKey := (Str("query"), Str("q"))

  function Overriding(x: Json): Json {
    Obj(map["in" := Str("query"), "name" := Str("q"), "schema" := Obj(map["const" := x])])
  }

  const SHARING: Json := Holding(QueryParameter("q"))

  lemma SharedSlots(x: Json)
    ensures ResolvedFields(SHARING, TO_A) == QueryParameter("q").fields && EntrySlot(SHARING, TO_A) == SLOT
    ensures ResolvedFields(SHARING, Overriding(x)) == Overriding(x).fields
    ensures EntrySlot(SHARING, Overriding(x)) == SLOT
    ensures KeyOf(TO_A) == (Str("$ref"), Str("#/A")) && KeyOf(Overriding(x)) == SLOT
  {
    hide Target;
    ParameterThroughA(QueryParameter("q"));
    assert RefOf(Overriding(x)).None?;
  }

  /** A shared parameter overridden in place has two keys: the checker takes the override for a new optional
      parameter and does not compare the two. */
  lemma OverrideIsSilent(meaning: Meaning, x: Json, y: Json)
    requires !JsonEq(y, x)
    ensures var call: map<ParameterKey, Json> := map[SLOT := y];
            && ParametersQuiet(SHARING, SHARING, [TO_A], [TO_A, Overriding(x)], 1)
            && ArgumentsValid(meaning, SHARING, [TO_A], call)
            && !ArgumentsValid(meaning, SHARING, [TO_A, Overriding(x)], call)
  {
    hide ParametersQuiet, ArgumentsValid;
    OverrideQuiet(x);
    SharedAccepts(meaning, x, y);
    OverrideRejects(meaning, x, y);
  }

  lemma SharedAccepts(meaning: Meaning, x: Json, y: Json)
    ensures ArgumentsValid(meaning, SHARING, [TO_A], map[SLOT := y])
  {
    hide Accepts, Resolve, EntrySlot;
    SharedSlots(x);
    assert HeaderSchema(SHARING, TO_A) == Null && !IsRequired(ResolvedFields(SHARING, TO_A));
    Inclusion.OpenAccepts(meaning, SHARING, Null, y);
    assert EntrySlot(SHARING, [TO_A][0]) == SLOT;
  }

  lemma OverrideRejects(meaning: Meaning, x: Json, y: Json)
    requires !JsonEq(y, x)
    ensures !ArgumentsValid(meaning, SHARING, [TO_A, Overriding(x)], map[SLOT := y])
  {
    hide Accepts, Resolve, EntrySlot, Valid;
    var list := [TO_A, Overriding(x)];
    SharedSlots(x);
    assert Effective(SHARING, list, 1) && EntrySlot(SHARING, list[1]) == SLOT;
    assert HeaderSchema(SHARING, list[1]) == Obj(map["const" := x]);
    ConstInvalid(meaning, SHARING, x, y, Refs(SHARING) + Refs(Obj(map["const" := x])));
    assert !Accepts(meaning, SHARING, Obj(map["const" := x]), y) by {
      Unaccepted(meaning, SHARING, Obj(map["const" := x]), y);
    }
  }

  lemma Unaccepted(meaning: Meaning, doc: Json, s: Json, v: Json)
    requires !Valid(meaning, doc, s, v, Refs(doc) + Refs(s))
    ensures !Accepts(meaning, doc, s, v)
  {
  }

  lemma OverrideQuiet(x: Json)
    ensures ParametersQuiet(SHARING, SHARING, [TO_A], [TO_A, Overriding(x)], 1)
  {
    hide SchemaFate, SchemaClean, Resolve, SlotsFate, SlotsClean, ParameterMap;
    var was, now := [TO_A], [TO_A, Overriding(x)];
    SharedSlots(x);
    OverrideMap(x);
    var olds, news := ParameterMap(SHARING, was), ParameterMap(SHARING, now);
    CompatibleAbsent(SHARING, SHARING, Null, Request, 1);
    SlotsFromEach(SHARING, SHARING, ParameterSchemas(olds), ParameterSchemas(news), Request, 1);
    assert AllResolve(SHARING, now);
  }

  lemma OverrideMap(x: Json)
    ensures var shared := QueryParameter("q").fields; var key := (Str("$ref"), Str("#/A"));
            && ParameterMap(SHARING, [TO_A]) == map[key := shared]
            && ParameterMap(SHARING, [TO_A, Overriding(x)]) == map[key := shared, SLOT := Overriding(x).fields]
    ensures Resolve(SHARING, TO_A).Resolved? && Resolve(SHARING, Overriding(x)).Resolved?
  {
    hide Target, Resolve;
    ParameterThroughA(QueryParameter("q"));
    SharedSlots(x);
    assert Resolve(SHARING, Overriding(x)).Resolved? by {
      NoReference(SHARING, Overriding(x).fields);
    }
    assert [TO_A, Overriding(x)][..1] == [TO_A];
  }

  // ---- required response headers ----

  function WithHeader(name: string, header: Object): Json {
    Obj(map["headers" := Obj(map[name := Obj(header)])])
  }

  lemma HeaderHeld(name: string, header: Object)
    requires "$ref" !in header
    ensures var response := WithHeader(name, header);
            && Resolve(BLANK, response) == Resolved(response)
            && Headers(ResolvedFields(BLANK, response)) == map[name := Obj(header)]
            && Resolve(BLANK, Obj(header)) == Resolved(Obj(header))
            && ContentOf(BLANK, response) == map[]
  {
    NoReference(BLANK, WithHeader(name, header).fields);
    NoReference(BLANK, header);
  }

  /** Whether a response header is required is never compared: a reply may come to leave it out. */
  lemma OptionalHeaderIsSilent(meaning: Meaning, name: string)
    ensures var b, c := WithHeader(name, map["required" := Bool(true)]), WithHeader(name, map[]);
            && ResponseQuiet(BLANK, BLANK, b, c, 1)
            && ReplyValid(meaning, BLANK, c, Reply(map[], None))
            && !ReplyValid(meaning, BLANK, b, Reply(map[], None))
  {
    hide ResponseQuiet, HeadersQuiet, SlotsQuiet, SchemaFate, SchemaClean, Resolve, Headers, ContentOf, Accepts;
    var must: Object, may: Object := map["required" := Bool(true)], map[];
    HeaderHeld(name, must);
    HeaderHeld(name, may);
    CompatibleAbsent(BLANK, BLANK, Null, Response, 1);
    HeadersShape(BLANK, BLANK, map[name := Obj(must)], map[name := Obj(may)], 1);
    SlotsFromEach<string>(BLANK, BLANK, map[], map[], Response, 1);
    ResponseShape(BLANK, BLANK, WithHeader(name, must), WithHeader(name, may), 1);
    assert name in Headers(ResolvedFields(BLANK, WithHeader(name, must)));
  }

  // ---- content of parameters and headers ----

  /** The only media type. */
  const JSON_MEDIA: string := "application/json"

  function HeldAs(schema: Json): Json {
    Obj(map[JSON_MEDIA := Obj(map["schema" := schema])])
  }

  function ContentParameter(schema: Json): Object {
    map["in" := Str("query"), "name" := Str("q"), "content" := HeldAs(schema)]
  }

  lemma HeldSchema(m: Object, schema: Json)
    requires Get(m, "content") == HeldAs(schema)
    ensures HeldContent(m) == map[JSON_MEDIA := schema]
  {
  }

  lemma ContentParameterFound(schema: Json)
    ensures var m := ContentParameter(schema);
            && Resolve(BLANK, Obj(m)).Resolved? && ResolvedFields(BLANK, Obj(m)) == m
            && ParameterMap(BLANK, [Obj(m)]) == map[SLOT := m]
            && EntrySlot(BLANK, Obj(m)) == SLOT && !IsRequired(m) && Get(m, "schema") == Null
            && HeldContent(m) == map[JSON_MEDIA := schema]
  {
    hide HeldAs, HeldContent;
    var m := ContentParameter(schema);
    NoReference(BLANK, m);
    HeldSchema(m, schema);
    assert [Obj(m)][..0] == [];
  }

  /** The `content` of a parameter is never compared: the schema in it may be narrowed. */
  lemma NarrowedContentIsSilent(meaning: Meaning, x: Json, y: Json)
    requires !JsonEq(y, x)
    ensures var b, c := Obj(ContentParameter(Obj(map[]))), Obj(ContentParameter(Obj(map["const" := x])));
            var call: map<ParameterKey, Json> := map[SLOT := y];
            && ParametersQuiet(BLANK, BLANK, [b], [c], 1)
            && ArgumentsValid(meaning, BLANK, [b], call) && !ArgumentsValid(meaning, BLANK, [c], call)
  {
    hide ParametersQuiet, ArgumentsValid, ContentParameter, Accepts;
    ContentQuiet(Obj(map[]), Obj(map["const" := x]));
    EmptyAccepts(meaning, y);
    ConstRejects(meaning, x, y);
    ContentJudges(meaning, Obj(map[]), y);
    ContentJudges(meaning, Obj(map["const" := x]), y);
  }

  lemma ContentQuiet(was: Json, now: Json)
    ensures ParametersQuiet(BLANK, BLANK, [Obj(ContentParameter(was))], [Obj(ContentParameter(now))], 1)
  {
    hide SchemaFate, SchemaClean, Resolve, SlotsFate, SlotsClean, ParameterMap, ContentParameter, IsRequired;
    var b, c := [Obj(ContentParameter(was))], [Obj(ContentParameter(now))];
    ContentParameterFound(was);
    ContentParameterFound(now);
    var olds, news := ParameterMap(BLANK, b), ParameterMap(BLANK, c);
    CompatibleAbsent(BLANK, BLANK, Null, Request, 1);
    SlotsFromEach(BLANK, BLANK, ParameterSchemas(olds), ParameterSchemas(news), Request, 1);
  }

  lemma ContentJudges(meaning: Meaning, schema: Json, y: Json)
    ensures ArgumentsValid(meaning, BLANK, [Obj(ContentParameter(schema))], map[SLOT := y])
       <==> Accepts(meaning, BLANK, schema, y)
  {
    hide Accepts, Resolve, ParameterMap, ArgumentsValid, KeysMatchSlots, ContentParameter, HeldContent, IsRequired,
      EntrySlot;
    var m := ContentParameter(schema);
    var list := [Obj(m)];
    ContentParameterFound(schema);
    LoneEntryMatches(BLANK, Obj(m));
    var call: map<ParameterKey, Json> := map[SLOT := y];
    DictionaryIsFaithful(meaning, BLANK, list, call);
    assert SlotOf(m) == SLOT by {
      SlotOfEntry(BLANK, Obj(m));
    }
    Inclusion.OpenAccepts(meaning, BLANK, Null, y);
    assert HeldContent(m)[JSON_MEDIA] == schema;
    assert HolderAccepts(meaning, BLANK, m, y) <==> Accepts(meaning, BLANK, schema, y);
    var declared := ParameterMap(BLANK, list);
    assert SLOT in declared && declared[SLOT] == m && SLOT in call && call[SLOT] == y;
    assert ArgumentsFit(meaning, BLANK, declared, call) <==> HolderAccepts(meaning, BLANK, m, y);
  }

  lemma SlotOfEntry(doc: Json, entry: Json)
    ensures EntrySlot(doc, entry) == SlotOf(ResolvedFields(doc, entry))
  {
  }

  function ContentHeader(schema: Json): Object {
    map["content" := HeldAs(schema)]
  }

  /** Nor is that of a response header, whose values may come to be others. */
  lemma WidenedHeaderIsSilent(meaning: Meaning, name: string, x: Json, y: Json)
    requires !JsonEq(y, x)
    ensures var b := WithHeader(name, ContentHeader(Obj(map["const" := x])));
            var c := WithHeader(name, ContentHeader(Obj(map[])));
            && ResponseQuiet(BLANK, BLANK, b, c, 1)
            && ReplyValid(meaning, BLANK, c, Reply(map[name := y], None))
            && !ReplyValid(meaning, BLANK, b, Reply(map[name := y], None))
  {
    hide ResponseQuiet, ReplyValid, Accepts;
    HeaderQuiets(name, Obj(map["const" := x]), Obj(map[]));
    EmptyAccepts(meaning, y);
    ConstRejects(meaning, x, y);
    HeaderJudges(meaning, name, Obj(map["const" := x]), y);
    HeaderJudges(meaning, name, Obj(map[]), y);
  }

  lemma HeaderQuiets(name: string, was: Json, now: Json)
    ensures var b, c := ContentHeader(was), ContentHeader(now);
            ResponseQuiet(BLANK, BLANK, WithHeader(name, b), WithHeader(name, c), 1)
  {
    hide ResponseQuiet, HeadersQuiet, SlotsQuiet, SchemaFate, SchemaClean, Resolve, Headers, ContentOf, HeldAs;
    var b: Object, c: Object := ContentHeader(was), ContentHeader(now);
    HeaderHeld(name, b);
    HeaderHeld(name, c);
    CompatibleAbsent(BLANK, BLANK, Null, Response, 1);
    HeadersShape(BLANK, BLANK, map[name := Obj(b)], map[name := Obj(c)], 1);
    SlotsFromEach<string>(BLANK, BLANK, map[], map[], Response, 1);
    ResponseShape(BLANK, BLANK, WithHeader(name, b), WithHeader(name, c), 1);
  }

  lemma HeaderJudges(meaning: Meaning, name: string, schema: Json, y: Json)
    ensures ReplyValid(meaning, BLANK, WithHeader(name, ContentHeader(schema)), Reply(map[name := y], None))
       <==> Accepts(meaning, BLANK, schema, y)
  {
    hide Resolve, Headers, ContentOf, Accepts, HeldContent, HeldAs;
    var m: Object := ContentHeader(schema);
    HeaderHeld(name, m);
    HeldSchema(m, schema);
    Inclusion.OpenAccepts(meaning, BLANK, Null, y);
    assert HeldContent(m)[JSON_MEDIA] == schema;
    assert ResolvedFields(BLANK, Obj(m)) == m && Get(m, "schema") == Null && Get(m, "required") == Null;
    assert HolderAccepts(meaning, BLANK, m, y) <==> Accepts(meaning, BLANK, schema, y);
    assert name in Headers(ResolvedFields(BLANK, WithHeader(name, m)));
  }

  // ---- a comparison that no stack suffices for ----

  const RECURSIVE: Json := Obj(map["properties" := Obj(map["next" := TO_A])])

  /** A baseline schema that refers to itself below a property exhausts every stack, even compared with itself. */
  lemma {:induction false} RecursiveSchemaOverflows(stack: nat)
    ensures StackOverflow in SchemaFate(Holding(RECURSIVE), Holding(RECURSIVE), TO_A, TO_A, stack)
  {
    RecursiveNeverUnfolds(stack);
    SelfComparisonOverflows(Holding(RECURSIVE), TO_A, stack);
  }

  lemma {:induction false} RecursiveNeverUnfolds(n: nat)
    ensures !Unfolds(Holding(RECURSIVE), TO_A, n)
  {
    hide Target;
    if n > 0 {
      ParameterThroughA(RECURSIVE);
      assert Properties(RECURSIVE.fields) == map["next" := TO_A];
      RecursiveNeverUnfolds(n - 1);
      assert "next" in Properties(ResolvedFields(Holding(RECURSIVE), TO_A));
    }
  }

  // ---- why composing two steps asks for its rules ----

  lemma FlatIncompatible(b: Object, c: Object, direction: Direction)
    requires "$ref" !in b && "$ref" !in c && !NodeClean(b, c, direction)
    ensures !Compatible(BLANK, BLANK, Obj(b), Obj(c), direction, 1)
  {
    hide Compatible, CompatibleBelow, NodeClean, Resolve;
    NoReference(BLANK, b);
    NoReference(BLANK, c);
    if Compatible(BLANK, BLANK, Obj(b), Obj(c), direction, 1) {
      CompatibleDescends(BLANK, BLANK, Obj(b), Obj(c), direction, 1);
      BelowNode(BLANK, BLANK, b, c, direction, 0);
    }
  }

  lemma ConstUnclean(b: Object, c: Object, direction: Direction)
    requires !ConstClean(b, c)
    ensures !NodeClean(b, c, direction)
  {
    hide ConstClean, SameKeywords, BoundsClean;
  }

  /** A null `const` is dropped in silence and another added in silence, but the two together are reported. */
  lemma NullConstDoesNotCompose(x: Json)
    requires !PyEq(Null, x)
    ensures var a, b, c := Obj(map["const" := Null]), Obj(map[]), Obj(map["const" := x]);
            && Compatible(BLANK, BLANK, a, b, Request, 1) && Compatible(BLANK, BLANK, b, c, Request, 1)
            && !Compatible(BLANK, BLANK, a, c, Request, 1)
  {
    hide Compatible, NodeClean;
    var a: Object, b: Object, c: Object := map["const" := Null], map[], map["const" := x];
    NullConstClean(a, b, Request);
    SameButConst(b, c);
    ConstUnclean(a, c, Request);
    FlatCompatible(BLANK, BLANK, a, b, Request);
    FlatCompatible(BLANK, BLANK, b, c, Request);
    FlatIncompatible(a, c, Request);
  }

  /** A bound that is no number in between hides that it rises. */
  lemma UnreadableBoundDoesNotCompose()
    ensures var a, b, c := Obj(map["minLength" := Num(1.0, false)]), Obj(map["minLength" := Str("1")]),
                           Obj(map["minLength" := Num(2.0, false)]);
            && Compatible(BLANK, BLANK, a, b, Request, 1) && Compatible(BLANK, BLANK, b, c, Request, 1)
            && !Compatible(BLANK, BLANK, a, c, Request, 1)
  {
    hide Compatible;
    var a: Object, b: Object := map["minLength" := Num(1.0, false)], map["minLength" := Str("1")];
    var c: Object := map["minLength" := Num(2.0, false)];
    assert forall k :: k != "minLength" ==> Get(a, k) == Null && Get(b, k) == Null && Get(c, k) == Null;
    BoundOnly(a, b, "minLength", Request);
    BoundOnly(b, c, "minLength", Request);
    assert !LowerBoundClean(a, c, MINIMUMS[0], Request);
    FlatCompatible(BLANK, BLANK, a, b, Request);
    FlatCompatible(BLANK, BLANK, b, c, Request);
    FlatIncompatible(a, c, Request);
  }

  /** Schemas with one bound are compared by it. */
  lemma BoundOnly(b: Object, c: Object, keyword: string, direction: Direction)
    requires b.Keys == c.Keys == {keyword}
    requires (keyword == "minLength" && LowerBoundClean(b, c, keyword, direction))
             || (keyword == "maxLength" && UpperBoundClean(b, c, keyword, direction))
    ensures NodeClean(b, c, direction)
  {
    hide AssertionsClean, BoundsClean, SameKeywords, LowerBoundClean, UpperBoundClean;
    BoundAssertions(b, c, keyword, direction);
    BoundCompositions(b, c, keyword, direction);
    BoundBounds(b, c, keyword, direction);
  }

  lemma BoundAssertions(b: Object, c: Object, keyword: string, direction: Direction)
    requires b.Keys == c.Keys == {keyword} && (keyword == "minLength" || keyword == "maxLength")
    ensures AssertionsClean(b, c, direction)
  {
    assert forall k :: k != keyword ==> Get(b, k) == Null && Get(c, k) == Null;
  }

  lemma BoundCompositions(b: Object, c: Object, keyword: string, direction: Direction)
    requires b.Keys == c.Keys == {keyword} && (keyword == "minLength" || keyword == "maxLength")
    ensures SameKeywords(b, c, COMPOSITIONS) && AdditionalClean(b, c, direction)
  {
  }

  lemma BoundBounds(b: Object, c: Object, keyword: string, direction: Direction)
    requires b.Keys == c.Keys == {keyword}
    requires (keyword == "minLength" && LowerBoundClean(b, c, keyword, direction))
             || (keyword == "maxLength" && UpperBoundClean(b, c, keyword, direction))
    ensures BoundsClean(b, c, direction)
  {
    assert forall k :: k != keyword ==> Get(b, k) == Null && Get(c, k) == Null;
    forall i | 0 <= i < |MINIMUMS| ensures LowerBoundClean(b, c, MINIMUMS[i], direction) {
    }
    forall i | 0 <= i < |MAXIMUMS| ensures UpperBoundClean(b, c, MAXIMUMS[i], direction) {
    }
  }
}
