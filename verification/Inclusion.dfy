/** The soundness theorems: an empty report, on schemas within the fragment the checker reads, means that
    acceptance carries over through references, members and items. */
module Inclusion {
  import opened Json
  import opened Reference
  import opened Heredity
  import opened SchemaRules
  import opened Semantics
  import opened Soundness
  import Text

  // ---- following references keeps acceptance ----

  /** A value valid against a reference is valid against what the reference resolves to, with the references of the
      chain followed. */
  lemma {:induction false} ResolveKeeps(meaning: Meaning, doc: Json, current: Json, visited: set<string>, v: Json,
                                        unseen: set<string>)
    requires Valid(meaning, doc, current, v, unseen)
    requires ResolveFrom(doc, current, visited).Resolved?
    ensures Valid(meaning, doc, ResolveFrom(doc, current, visited).value, v, unseen - ChainFrom(doc, current, visited))
    decreases Refs(doc) + Refs(current) - visited
  {
    hide Asserts, ValidMembers, ValidItems, ValidCompositions;
    var ref := RefOf(current);
    if ref.None? || !Local(ref.value) || ref.value in visited {
      assert unseen - {} == unseen;
    } else {
      RefAmongRefs(current);
      var target := Target(doc, ref.value).value;
      WalkRefs(doc, Text.Split(ref.value[2..], '/'));
      ResolveKeeps(meaning, doc, target, visited + {ref.value}, v, unseen - {ref.value});
      Subtracted(unseen, ref.value, ChainFrom(doc, target, visited + {ref.value}));
    }
  }

  lemma Subtracted(s: set<string>, x: string, rest: set<string>)
    ensures s - {x} - rest == s - ({x} + rest)
  {
  }

  /** A schema without keywords accepts every value. */
  lemma SilentSchema(meaning: Meaning, doc: Json, m: Object, v: Json, unseen: set<string>)
    requires m.Keys <= {"$ref", "summary", "description"}
    ensures Asserts(meaning, m, v)
    ensures ValidMembers(meaning, doc, m, v) && ValidItems(meaning, doc, m, v)
    ensures ValidCompositions(meaning, doc, m, v, unseen)
  {
    SilentAssertions(meaning, m, v);
    SilentApplicators(meaning, doc, m, v);
    SilentCompositions(meaning, doc, m, v, unseen);
  }

  /** No keyword but annotations and the ones for members. */
  predicate NoAssertions(m: Object) {
    m.Keys <= {"$ref", "summary", "description", "properties", "additionalProperties"}
  }

  lemma SilentAssertions(meaning: Meaning, m: Object, v: Json)
    requires NoAssertions(m)
    ensures Asserts(meaning, m, v)
  {
    hide HasType, Measure, JsonEq, NoAssertions;
    BoundKeywords();
    SilentBounds(m);
    SilentOpaque(m);
  }

  lemma SilentOpaque(m: Object)
    requires NoAssertions(m)
    ensures "type" !in m && "const" !in m && "enum" !in m && "required" !in m
    ensures forall k :: k in OPAQUE_KEYWORDS ==> Get(m, k) == Null
  {
    AnnotationsAreSilent();
    forall k | k in OPAQUE_KEYWORDS ensures Get(m, k) == Null {
      assert k !in m.Keys;
    }
  }

  lemma AnnotationsAreSilent()
    ensures {"$ref", "summary", "description", "properties", "additionalProperties"} !! OPAQUE_KEYWORDS
  {
    assert {"$ref", "summary", "description"} !! OPAQUE_KEYWORDS;
    assert {"properties", "additionalProperties"} !! OPAQUE_KEYWORDS;
  }

  lemma SilentApplicators(meaning: Meaning, doc: Json, m: Object, v: Json)
    requires m.Keys <= {"$ref", "summary", "description"}
    ensures ValidMembers(meaning, doc, m, v) && ValidItems(meaning, doc, m, v)
  {
    hide Valid, Accepts;
    assert "properties" !in m && "additionalProperties" !in m && "items" !in m;
    assert "patternProperties" !in m && "prefixItems" !in m;
    if v.Obj? {
      forall k | k in v.fields ensures Accepts(meaning, doc, Bool(true), v.fields[k]) {
        OpenAccepts(meaning, doc, Bool(true), v.fields[k]);
      }
    }
  }

  lemma SilentCompositions(meaning: Meaning, doc: Json, m: Object, v: Json, unseen: set<string>)
    requires NoAssertions(m)
    ensures ValidCompositions(meaning, doc, m, v, unseen)
  {
    hide Valid, ValidAt;
    assert "allOf" !in m && "anyOf" !in m && "oneOf" !in m && "not" !in m;
  }

  lemma SilentBounds(m: Object)
    requires NoAssertions(m)
    ensures forall i :: 0 <= i < |MINIMUMS| ==> Get(m, MINIMUMS[i]) == Null
    ensures forall i :: 0 <= i < |MAXIMUMS| ==> Get(m, MAXIMUMS[i]) == Null
  {
    assert "minLength" !in m && "minItems" !in m && "minProperties" !in m && "minimum" !in m
        && "exclusiveMinimum" !in m;
    assert "maxLength" !in m && "maxItems" !in m && "maxProperties" !in m && "maximum" !in m
        && "exclusiveMaximum" !in m;
  }

  lemma PlainIsHereditary()
    ensures Hereditary(PlainRefs)
  {
  }

  /** A value valid against what a reference standing alone resolves to is valid against the reference. */
  lemma {:induction false} ResolvePlain(meaning: Meaning, doc: Json, current: Json, visited: set<string>, v: Json,
                                        unseen: set<string>)
    requires PlainRefs(doc) && PlainRefs(current)
    requires ResolveFrom(doc, current, visited).Resolved?
    requires RefOf(ResolveFrom(doc, current, visited).value).None?
    requires Valid(meaning, doc, ResolveFrom(doc, current, visited).value, v, unseen - ChainFrom(doc, current, visited))
    requires Refs(doc) + Refs(current) - visited <= unseen
    ensures Valid(meaning, doc, current, v, unseen)
    decreases Refs(doc) + Refs(current) - visited
  {
    hide Asserts, ValidMembers, ValidItems, ValidCompositions, Hereditary;
    var ref := RefOf(current);
    if ref.Some? {
      RefAmongRefs(current);
      var target := Target(doc, ref.value).value;
      WalkRefs(doc, Text.Split(ref.value[2..], '/'));
      PlainIsHereditary();
      WalkInherits(PlainRefs, doc, Text.Split(ref.value[2..], '/'));
      Subtracted(unseen, ref.value, ChainFrom(doc, target, visited + {ref.value}));
      ResolvePlain(meaning, doc, target, visited + {ref.value}, v, unseen - {ref.value});
      SilentSchema(meaning, doc, current.fields, v, unseen);
    } else {
      assert unseen - {} == unseen;
    }
  }

  // ---- an empty report, seen from the side whose acceptance is given ----

  /** The comparison completes without a change; `p` is the baseline on a request, the candidate on a response. */
  ghost predicate Quiet(pd: Json, qd: Json, p: Json, q: Json, direction: Direction, stack: nat) {
    if direction.Request? then SchemaFate(pd, qd, p, q, stack) == {} && SchemaClean(pd, qd, p, q, direction, stack)
    else SchemaFate(qd, pd, q, p, stack) == {} && SchemaClean(qd, pd, q, p, direction, stack)
  }

  ghost predicate QuietBelow(pd: Json, qd: Json, p: Object, q: Object, direction: Direction, stack: nat) {
    if direction.Request? then
      ResolvedFate(pd, qd, p, q, stack) == {} && ResolvedClean(pd, qd, p, q, direction, stack)
    else ResolvedFate(qd, pd, q, p, stack) == {} && ResolvedClean(qd, pd, q, p, direction, stack)
  }

  lemma QuietDescends(pd: Json, qd: Json, p: Json, q: Json, direction: Direction, stack: nat)
    requires Quiet(pd, qd, p, q, direction, stack) && p != Null && q != Null
    ensures stack > 0 && Descends(pd, qd, p, q)
    ensures QuietBelow(pd, qd, Fields(Resolve(pd, p).value), Fields(Resolve(qd, q).value), direction, stack - 1)
  {
    hide SchemaFate, SchemaClean, ResolvedFate, ResolvedClean, Resolve;
    if direction.Request? {
      FateShows(pd, qd, p, q, stack);
      Descent(pd, qd, p, q, direction, stack);
    } else {
      FateShows(qd, pd, q, p, stack);
      Descent(qd, pd, q, p, direction, stack);
    }
  }

  lemma FateShows(bd: Json, cd: Json, b: Json, c: Json, stack: nat)
    requires SchemaFate(bd, cd, b, c, stack) == {} && b != Null && c != Null
    ensures stack > 0 && Descends(bd, cd, b, c)
  {
    hide SchemaFate, Resolve;
    if stack == 0 {
      NoStack(bd, cd, b, c);
    } else if !Descends(bd, cd, b, c) {
      DanglingReference(bd, cd, b, c, stack);
    }
  }

  lemma QuietNode(pd: Json, qd: Json, p: Object, q: Object, direction: Direction, stack: nat)
    requires QuietBelow(pd, qd, p, q, direction, stack) && Readable(pd, qd, p, q)
    ensures Narrows(p, q)
    ensures Additional(q) == Bool(false) ==> Additional(p) == Bool(false)
  {
    hide Readable, Narrows, PropertiesClean, ItemsClean, AssertionsClean, BoundsClean, SameKeywords;
    if direction.Request? {
      CleanRequestNarrows(pd, qd, p, q);
    } else {
      CleanResponseNarrows(qd, pd, q, p);
    }
  }

  lemma QuietProperty(pd: Json, qd: Json, p: Object, q: Object, direction: Direction, stack: nat, name: string)
    requires QuietBelow(pd, qd, p, q, direction, stack) && name in SharedNames(p, q)
    ensures Quiet(pd, qd, Properties(p)[name], Properties(q)[name], direction, stack)
  {
    hide SchemaFate, SchemaClean, NodeClean, PropertyFate, PropertyClean, PropertiesFate, PropertiesClean, ItemsFate,
      ItemsClean;
    if direction.Request? {
      PropertiesCases(pd, qd, p, q, direction, stack);
      PropertyCases(pd, qd, p, q, name, direction, stack);
    } else {
      PropertiesCases(qd, pd, q, p, direction, stack);
      PropertyCases(qd, pd, q, p, name, direction, stack);
    }
  }

  lemma QuietItems(pd: Json, qd: Json, p: Object, q: Object, direction: Direction, stack: nat)
    requires QuietBelow(pd, qd, p, q, direction, stack) && Get(p, "items") != Null && Get(q, "items") != Null
    ensures Quiet(pd, qd, Get(p, "items"), Get(q, "items"), direction, stack)
  {
    hide SchemaFate, SchemaClean, NodeClean, PropertiesFate, PropertiesClean, ItemsFate, ItemsClean;
    if direction.Request? {
      ItemsCases(pd, qd, p, q, direction, stack);
    } else {
      ItemsCases(qd, pd, q, p, direction, stack);
    }
  }

  // ---- the theorem ----

  lemma QuietHasStack(pd: Json, qd: Json, p: Json, q: Json, direction: Direction, stack: nat)
    requires Quiet(pd, qd, p, q, direction, stack)
    ensures stack > 0
  {
    hide SchemaFate, SchemaClean;
    if stack == 0 {
      NoStack(pd, qd, p, q);
      NoStack(qd, pd, q, p);
    }
  }

  /** What a valid value satisfies keyword by keyword; a schema that is no mapping has no keywords. */
  lemma PartsHold(meaning: Meaning, doc: Json, s: Json, v: Json, u: set<string>)
    requires Valid(meaning, doc, s, v, u)
    ensures Asserts(meaning, Fields(s), v) && ValidMembers(meaning, doc, Fields(s), v)
    ensures ValidItems(meaning, doc, Fields(s), v) && ValidCompositions(meaning, doc, Fields(s), v, u)
  {
    hide Asserts, ValidMembers, ValidItems, ValidCompositions;
    if !s.Obj? {
      SilentSchema(meaning, doc, map[], v, u);
    }
  }

  lemma CoveredStep(pd: Json, qd: Json, p: Json, q: Json, stack: nat)
    requires Covered(pd, qd, p, q, stack) && stack > 0 && q != Null
    ensures p != Null
    ensures Descends(pd, qd, p, q) ==>
              || Dead(Resolve(pd, p).value)
              || (&& !Dead(Resolve(qd, q).value) && CompositionsKept(pd, qd, p, q)
                  && CoveredBelow(pd, qd, ResolvedFields(pd, p), ResolvedFields(qd, q), stack))
  {
    hide CoveredBelow, CompositionsKept, Resolve, Dead;
  }

  lemma PartsSuffice(meaning: Meaning, doc: Json, s: Json, v: Json, w: set<string>)
    requires !Dead(s)
    requires s.Obj? ==>
               && Asserts(meaning, s.fields, v) && ValidMembers(meaning, doc, s.fields, v)
               && ValidItems(meaning, doc, s.fields, v) && ValidCompositions(meaning, doc, s.fields, v, w)
    ensures Valid(meaning, doc, s, v, w)
  {
    hide Asserts, ValidMembers, ValidItems, ValidCompositions;
  }

  lemma AcceptsAfterResolving(meaning: Meaning, doc: Json, s: Json, v: Json)
    requires Accepts(meaning, doc, s, v) && Resolve(doc, s).Resolved?
    ensures Valid(meaning, doc, Resolve(doc, s).value, v, Unseen(doc, s)) && !Dead(Resolve(doc, s).value)
  {
    hide Valid, ResolveFrom, ChainFrom;
    ResolveKeeps(meaning, doc, s, {}, v, Refs(doc) + Refs(s));
    ChainEnds(doc, s, {});
    DeadAcceptsNothing(meaning, doc, Resolve(doc, s).value, v, Unseen(doc, s));
  }

  /** A chain ends in a reference only where that leads nowhere in the document or has been followed. */
  lemma {:induction false} ChainEnds(doc: Json, current: Json, visited: set<string>)
    requires ResolveFrom(doc, current, visited).Resolved?
    ensures var ref := RefOf(ResolveFrom(doc, current, visited).value);
            ref.Some? && Local(ref.value) ==> ref.value in visited + ChainFrom(doc, current, visited)
    decreases Refs(doc) + Refs(current) - visited
  {
    var ref := RefOf(current);
    if ref.Some? && Local(ref.value) && ref.value !in visited {
      RefAmongRefs(current);
      WalkRefs(doc, Text.Split(ref.value[2..], '/'));
      ChainEnds(doc, Target(doc, ref.value).value, visited + {ref.value});
    }
  }

  lemma DeadAcceptsNothing(meaning: Meaning, doc: Json, s: Json, v: Json, unseen: set<string>)
    requires RefOf(s).Some? && Local(RefOf(s).value) ==> RefOf(s).value !in unseen
    ensures Valid(meaning, doc, s, v, unseen) ==> !Dead(s)
  {
    hide Asserts, ValidMembers, ValidItems, ValidCompositions;
  }

  lemma AcceptsBeforeResolving(meaning: Meaning, doc: Json, s: Json, v: Json)
    requires PlainRefs(doc) && PlainRefs(s)
    requires Resolve(doc, s).Resolved? && !Dead(Resolve(doc, s).value)
    requires Valid(meaning, doc, Resolve(doc, s).value, v, Unseen(doc, s))
    ensures Accepts(meaning, doc, s, v)
  {
    hide Valid, ResolveFrom, ChainFrom, PlainRefs;
    ResolvePlain(meaning, doc, s, {}, v, Refs(doc) + Refs(s));
  }

  /** Acceptance carries over wherever the report is empty and the fragment is kept. */
  lemma {:induction false} AcceptanceCarriesOver(meaning: Meaning, pd: Json, qd: Json, p: Json, q: Json,
                                                 direction: Direction, stack: nat, v: Json)
    requires Quiet(pd, qd, p, q, direction, stack)
    requires Covered(pd, qd, p, q, stack) && PlainRefs(qd) && PlainRefs(q)
    requires Accepts(meaning, pd, p, v)
    ensures Accepts(meaning, qd, q, v)
    decreases stack, 0
  {
    hide Quiet, QuietBelow, Covered, CoveredBelow, CompositionsKept, PlainRefs, Valid, Accepts, Resolve, Dead, Unseen;
    if q == Null {
      OpenAccepts(meaning, qd, q, v);
    } else {
      QuietHasStack(pd, qd, p, q, direction, stack);
      CoveredStep(pd, qd, p, q, stack);
      QuietDescends(pd, qd, p, q, direction, stack);
      AcceptsAfterResolving(meaning, pd, p, v);
      CarriesOverTargets(meaning, pd, qd, p, q, direction, stack, v);
      AcceptsBeforeResolving(meaning, qd, q, v);
    }
  }

  lemma {:induction false} CarriesOverTargets(meaning: Meaning, pd: Json, qd: Json, p: Json, q: Json,
                                              direction: Direction, stack: nat, v: Json)
    requires stack > 0 && Resolve(pd, p).Resolved? && Resolve(qd, q).Resolved? && PlainRefs(qd) && PlainRefs(q)
    requires QuietBelow(pd, qd, ResolvedFields(pd, p), ResolvedFields(qd, q), direction, stack - 1)
    requires CoveredBelow(pd, qd, ResolvedFields(pd, p), ResolvedFields(qd, q), stack)
    requires CompositionsKept(pd, qd, p, q)
    requires !Dead(Resolve(qd, q).value)
    requires Valid(meaning, pd, Resolve(pd, p).value, v, Unseen(pd, p))
    ensures Valid(meaning, qd, Resolve(qd, q).value, v, Unseen(qd, q))
    decreases stack - 1, 4
  {
    hide QuietBelow, CoveredBelow, PlainRefs, Valid, Resolve, Dead, KeptReferences, Unseen;
    ResolvesPlainly(qd, q);
    var refs: set<string> :| KeptReferences(pd, qd, p, q, refs);
    KeptParts(pd, qd, p, q, refs);
    ResolvedCarriesOver(meaning, pd, qd, Resolve(pd, p).value, Resolve(qd, q).value, direction, stack - 1, v,
                        Unseen(pd, p), Unseen(qd, q), refs);
  }

  lemma KeptParts(pd: Json, qd: Json, p: Json, q: Json, refs: set<string>)
    requires KeptReferences(pd, qd, p, q, refs)
    ensures Shared(pd, qd, refs) && Unseen(pd, p) * refs == Unseen(qd, q) * refs
    ensures ComposedOf(ResolvedFields(qd, q), refs)
  {
    hide Shared, ComposedOf, Unseen, ResolvedFields;
  }

  lemma ResolvesPlainly(doc: Json, s: Json)
    requires PlainRefs(doc) && PlainRefs(s)
    ensures Resolve(doc, s).Resolved? ==> PlainRefs(Resolve(doc, s).value)
  {
    hide PlainRefs, Hereditary, Resolve;
    PlainIsHereditary();
    ResolvedInherits(PlainRefs, doc, s);
  }

  lemma {:induction false} ResolvedCarriesOver(meaning: Meaning, pd: Json, qd: Json, pr: Json, qr: Json,
                                               direction: Direction, stack: nat, v: Json, u: set<string>,
                                               w: set<string>, refs: set<string>)
    requires QuietBelow(pd, qd, Fields(pr), Fields(qr), direction, stack)
    requires CoveredBelow(pd, qd, Fields(pr), Fields(qr), stack + 1) && PlainRefs(qd) && PlainRefs(qr)
    requires Shared(pd, qd, refs) && u * refs == w * refs && ComposedOf(Fields(qr), refs)
    requires !Dead(qr)
    requires Valid(meaning, pd, pr, v, u)
    ensures Valid(meaning, qd, qr, v, w)
    decreases stack, 3
  {
    hide QuietBelow, CoveredBelow, PlainRefs, ValidMembers, ValidItems, ValidCompositions, Asserts, Valid, Dead,
      Shared, ComposedOf;
    PartsHold(meaning, pd, pr, v, u);
    if qr.Obj? {
      PartsCarryOver(meaning, pd, qd, Fields(pr), qr.fields, direction, stack, v);
      NarrowedBelow(pd, qd, Fields(pr), qr.fields, direction, stack);
      CompositionsCarryOver(meaning, pd, qd, Fields(pr), qr.fields, v, u, w, refs);
    }
    PartsSuffice(meaning, qd, qr, v, w);
  }

  lemma NarrowedBelow(pd: Json, qd: Json, p: Object, q: Object, direction: Direction, stack: nat)
    requires QuietBelow(pd, qd, p, q, direction, stack) && CoveredBelow(pd, qd, p, q, stack + 1)
    ensures Narrows(p, q)
    ensures Additional(q) == Bool(false) ==> Additional(p) == Bool(false)
  {
    hide QuietBelow, Readable, Narrows, Covered;
    QuietNode(pd, qd, p, q, direction, stack);
  }

  lemma {:induction false} PartsCarryOver(meaning: Meaning, pd: Json, qd: Json, p: Object, q: Object,
                                          direction: Direction, stack: nat, v: Json)
    requires QuietBelow(pd, qd, p, q, direction, stack)
    requires CoveredBelow(pd, qd, p, q, stack + 1) && PlainRefs(qd) && PlainRefs(Obj(q))
    requires Asserts(meaning, p, v) && ValidMembers(meaning, pd, p, v) && ValidItems(meaning, pd, p, v)
    ensures Asserts(meaning, q, v) && ValidMembers(meaning, qd, q, v) && ValidItems(meaning, qd, q, v)
    decreases stack, 2
  {
    hide QuietBelow, CoveredBelow, PlainRefs, Narrows, Asserts, ValidMembers, ValidItems;
    NarrowedBelow(pd, qd, p, q, direction, stack);
    NarrowedAsserts(meaning, p, q, v);
    MembersCarryOver(meaning, pd, qd, p, q, direction, stack, v);
    ItemsCarryOver(meaning, pd, qd, p, q, direction, stack, v);
  }

  /** Compositions are the same, and the references inside them are unseen on both sides. */
  lemma CompositionsCarryOver(meaning: Meaning, pd: Json, qd: Json, p: Object, q: Object, v: Json,
                              u: set<string>, w: set<string>, refs: set<string>)
    requires Narrows(p, q) && ValidCompositions(meaning, pd, p, v, u)
    requires Shared(pd, qd, refs) && u * refs == w * refs && ComposedOf(q, refs)
    ensures ValidCompositions(meaning, qd, q, v, w)
  {
    hide ValidCompositions, Shared;
    SameCompositions(meaning, pd, p, q, v, u);
    SharedCompositionsValid(meaning, pd, qd, refs, q, v, u, w);
  }

  lemma SameCompositions(meaning: Meaning, doc: Json, p: Object, q: Object, v: Json, u: set<string>)
    requires forall i :: 0 <= i < |COMPOSITIONS| ==> Get(p, COMPOSITIONS[i]) == Get(q, COMPOSITIONS[i])
    ensures ValidCompositions(meaning, doc, p, v, u) == ValidCompositions(meaning, doc, q, v, u)
  {
    hide ValidIn, Excluded, Get;
    CompositionNames();
    SameIn(meaning, doc, p, q, "allOf", v, u);
    SameIn(meaning, doc, p, q, "anyOf", v, u);
    SameIn(meaning, doc, p, q, "oneOf", v, u);
    SameNot(meaning, doc, p, q, v, u);
  }

  lemma SameIn(meaning: Meaning, doc: Json, p: Object, q: Object, key: string, v: Json, u: set<string>)
    requires Get(p, key) == Get(q, key)
    ensures ValidIn(meaning, doc, p, key, v, u) == ValidIn(meaning, doc, q, key, v, u)
  {
    hide Valid;
  }

  lemma SameNot(meaning: Meaning, doc: Json, p: Object, q: Object, v: Json, u: set<string>)
    requires Get(p, "not") == Get(q, "not")
    ensures Excluded(meaning, doc, p, v, u) == Excluded(meaning, doc, q, v, u)
  {
    hide Valid;
  }

  lemma {:induction false} MembersCarryOver(meaning: Meaning, pd: Json, qd: Json, p: Object, q: Object,
                                            direction: Direction, stack: nat, v: Json)
    requires QuietBelow(pd, qd, p, q, direction, stack)
    requires CoveredBelow(pd, qd, p, q, stack + 1) && PlainRefs(qd) && PlainRefs(Obj(q))
    requires Additional(q) == Bool(false) ==> Additional(p) == Bool(false)
    requires ValidMembers(meaning, pd, p, v)
    ensures ValidMembers(meaning, qd, q, v)
    decreases stack, 1
  {
    hide QuietBelow, Quiet, Valid, Covered, Readable, ValidMember, PlainRefs;
    if v.Obj? {
      forall k | k in v.fields ensures ValidMember(meaning, qd, q, k, v.fields[k]) {
        ReadableNames(pd, qd, p, q);
        if k in Properties(q) && k in Properties(p) {
          NamedMember(meaning, pd, p, k, v.fields[k]);
          QuietProperty(pd, qd, p, q, direction, stack, k);
          PlainProperty(q, k);
          AcceptanceCarriesOver(meaning, pd, qd, Properties(p)[k], Properties(q)[k], direction, stack, v.fields[k]);
        }
        MemberCarriesOver(meaning, pd, qd, p, q, k, v.fields[k]);
      }
    }
  }

  lemma ReadableNames(pd: Json, qd: Json, p: Object, q: Object)
    requires Readable(pd, qd, p, q)
    ensures NamesKept(pd, qd, p, q)
  {
    hide NamesKept, UnreadKept;
  }

  lemma NamedMember(meaning: Meaning, doc: Json, m: Object, k: string, x: Json)
    requires ValidMember(meaning, doc, m, k, x) && k in Properties(m)
    ensures Accepts(meaning, doc, Properties(m)[k], x)
  {
    hide Accepts;
  }

  /** A member carries over if the schema under its own name does: patterns and the rest are kept. */
  lemma MemberCarriesOver(meaning: Meaning, pd: Json, qd: Json, p: Object, q: Object, k: string, x: Json)
    requires NamesKept(pd, qd, p, q) && ValidMember(meaning, pd, p, k, x)
    requires Additional(q) == Bool(false) ==> Additional(p) == Bool(false)
    requires k in Properties(q) && k in Properties(p) ==> Accepts(meaning, qd, Properties(q)[k], x)
    ensures ValidMember(meaning, qd, q, k, x)
  {
    hide Accepts, Frozen, PrefixKept, PatternsKept, AdditionalKept, Matched, PatternProperties;
    NothingIsFalse(meaning, pd, x);
    PatternsCarryOver(meaning, pd, qd, p, q, k, x);
    RestCarriesOver(meaning, pd, qd, p, q, x);
    NoPatterns(meaning, p, k);
  }

  lemma NoPatterns(meaning: Meaning, m: Object, k: string)
    ensures Get(m, "patternProperties") == Null ==> !Matched(meaning, m, k)
  {
  }

  /** The schema for members that are not named. */
  lemma RestCarriesOver(meaning: Meaning, pd: Json, qd: Json, p: Object, q: Object, x: Json)
    requires AdditionalKept(pd, qd, p, q)
    ensures Accepts(meaning, pd, Additional(p), x) ==> Accepts(meaning, qd, Additional(q), x)
  {
    hide Accepts, Frozen;
    NothingIsFalse(meaning, pd, x);
    if Open(Additional(q)) {
      OpenAccepts(meaning, qd, Additional(q), x);
    } else if Additional(p) != Bool(false) {
      FrozenAccepts(meaning, pd, qd, Additional(q), x);
    }
  }

  /** The schemas for members whose names match. */
  lemma PatternsCarryOver(meaning: Meaning, pd: Json, qd: Json, p: Object, q: Object, k: string, x: Json)
    requires PatternsKept(pd, qd, p, q) && ValidMember(meaning, pd, p, k, x)
    ensures forall pattern :: pattern in PatternProperties(q) && Matches(meaning, pattern, k) ==>
                                Accepts(meaning, qd, PatternProperties(q)[pattern], x)
    ensures Open(Additional(q)) || (Matched(meaning, p, k) <==> Matched(meaning, q, k))
    ensures Open(Additional(q)) ==> Accepts(meaning, qd, Additional(q), x)
  {
    hide Accepts, Frozen, Get, Fields, Open, Additional;
    if Open(Additional(q)) {
      OpenIsOpen(meaning, qd, Additional(q), x);
    }
    if Get(q, "patternProperties") == Null {
      NoFields();
    } else {
      forall pattern | pattern in PatternProperties(q) && Matches(meaning, pattern, k)
        ensures Accepts(meaning, qd, PatternProperties(q)[pattern], x)
      {
        FrozenField(pd, qd, Get(q, "patternProperties"), pattern);
        FrozenAccepts(meaning, pd, qd, PatternProperties(q)[pattern], x);
      }
    }
  }

  lemma OpenIsOpen(meaning: Meaning, doc: Json, s: Json, x: Json)
    requires Open(s)
    ensures Accepts(meaning, doc, s, x)
  {
    OpenAccepts(meaning, doc, s, x);
  }

  lemma NoFields()
    ensures Fields(Null) == map[]
  {
  }

  lemma FrozenField(d1: Json, d2: Json, s: Json, key: string)
    requires Frozen(d1, d2, s) && key in Fields(s)
    ensures Frozen(d1, d2, Fields(s)[key])
  {
    hide Frozen;
    FieldRefs(s);
    FrozenPart(d1, d2, s, Fields(s)[key]);
  }

  lemma {:induction false} ItemsCarryOver(meaning: Meaning, pd: Json, qd: Json, p: Object, q: Object,
                                          direction: Direction, stack: nat, v: Json)
    requires QuietBelow(pd, qd, p, q, direction, stack)
    requires CoveredBelow(pd, qd, p, q, stack + 1) && PlainRefs(qd) && PlainRefs(Obj(q))
    requires ValidItems(meaning, pd, p, v)
    ensures ValidItems(meaning, qd, q, v)
    decreases stack, 1
  {
    hide QuietBelow, Quiet, Valid, Covered, Readable, ValidItem, PlainRefs, PrefixKept, PatternsKept, AdditionalKept;
    if v.Arr? {
      ReadableNames(pd, qd, p, q);
      forall i | 0 <= i < |v.items| ensures ValidItem(meaning, qd, q, i, v.items[i]) {
        if i >= |PrefixItems(p)| && Get(q, "items") != Null {
          OtherItem(meaning, pd, p, i, v.items[i]);
          QuietItems(pd, qd, p, q, direction, stack);
          PlainMember(q, "items");
          AcceptanceCarriesOver(meaning, pd, qd, p["items"], q["items"], direction, stack, v.items[i]);
        }
        KeptPrefix(pd, qd, p, q);
        ItemCarriesOver(meaning, pd, qd, p, q, i, v.items[i]);
      }
    }
  }

  lemma KeptPrefix(pd: Json, qd: Json, p: Object, q: Object)
    requires NamesKept(pd, qd, p, q)
    ensures PrefixKept(pd, qd, p, q)
  {
    hide PrefixKept, PatternsKept, AdditionalKept;
  }

  lemma OtherItem(meaning: Meaning, doc: Json, m: Object, i: nat, x: Json)
    requires ValidItem(meaning, doc, m, i, x) && i >= |PrefixItems(m)| && Get(m, "items") != Null
    ensures Accepts(meaning, doc, m["items"], x)
  {
    hide Accepts;
  }

  /** An element carries over if the schema for the rest does: those of the first places are kept. */
  lemma ItemCarriesOver(meaning: Meaning, pd: Json, qd: Json, p: Object, q: Object, i: nat, x: Json)
    requires PrefixKept(pd, qd, p, q) && ValidItem(meaning, pd, p, i, x)
    requires i >= |PrefixItems(p)| && Get(q, "items") != Null ==> Accepts(meaning, qd, q["items"], x)
    ensures ValidItem(meaning, qd, q, i, x)
  {
    hide Accepts, Frozen, PrefixKept, PrefixItems;
    OpenAccepts(meaning, qd, Null, x);
    PrefixCarriesOver(meaning, pd, qd, p, q, i, x);
  }

  lemma PrefixCarriesOver(meaning: Meaning, pd: Json, qd: Json, p: Object, q: Object, i: nat, x: Json)
    requires PrefixKept(pd, qd, p, q) && ValidItem(meaning, pd, p, i, x)
    ensures i < |PrefixItems(q)| ==> Accepts(meaning, qd, PrefixItems(q)[i], x)
    ensures Get(q, "items") == Null || |PrefixItems(q)| == |PrefixItems(p)|
  {
    hide Accepts, Frozen, Get, Elements;
    if Get(q, "prefixItems") == Null {
      NoElements();
    } else if i < |PrefixItems(q)| {
      FrozenElement(pd, qd, Get(q, "prefixItems"), i);
      FrozenAccepts(meaning, pd, qd, PrefixItems(q)[i], x);
    }
  }

  lemma NoElements()
    ensures Elements(Null) == []
  {
  }

  lemma FrozenElement(d1: Json, d2: Json, s: Json, i: nat)
    requires Frozen(d1, d2, s) && i < |Elements(s)|
    ensures Frozen(d1, d2, Elements(s)[i])
  {
    hide Frozen;
    ElementRefs(s);
    FrozenPart(d1, d2, s, Elements(s)[i]);
  }

  lemma NothingIsFalse(meaning: Meaning, doc: Json, v: Json)
    ensures !Accepts(meaning, doc, Bool(false), v)
  {
  }

  lemma OpenAccepts(meaning: Meaning, doc: Json, s: Json, v: Json)
    requires !s.Obj? && s != Bool(false)
    ensures Accepts(meaning, doc, s, v)
  {
  }

  lemma PlainMember(m: Object, key: string)
    requires PlainRefs(Obj(m)) && key in m
    ensures PlainRefs(m[key])
  {
  }

  lemma PlainProperty(m: Object, name: string)
    requires PlainRefs(Obj(m)) && name in Properties(m)
    ensures PlainRefs(Properties(m)[name])
  {
    PlainMember(m, "properties");
    PlainMember(m["properties"].fields, name);
  }

  /** Request soundness: if comparing in direction "request" completes without a change, every value the baseline
      accepts the candidate accepts, each side with its own document's references. */
  lemma RequestSoundness(meaning: Meaning, bd: Json, cd: Json, b: Json, c: Json, stack: nat, v: Json)
    requires SchemaFate(bd, cd, b, c, stack) == {} && SchemaClean(bd, cd, b, c, Request, stack)
    requires Covered(bd, cd, b, c, stack) && PlainRefs(cd) && PlainRefs(c)
    ensures Accepts(meaning, bd, b, v) ==> Accepts(meaning, cd, c, v)
  {
    hide SchemaFate, SchemaClean, Covered, PlainRefs, Accepts;
    if Accepts(meaning, bd, b, v) {
      AcceptanceCarriesOver(meaning, bd, cd, b, c, Request, stack, v);
    }
  }

  /** Response soundness, the dual: every value the candidate accepts the baseline accepts. */
  lemma ResponseSoundness(meaning: Meaning, bd: Json, cd: Json, b: Json, c: Json, stack: nat, v: Json)
    requires SchemaFate(bd, cd, b, c, stack) == {} && SchemaClean(bd, cd, b, c, Response, stack)
    requires Covered(cd, bd, c, b, stack) && PlainRefs(bd) && PlainRefs(b)
    ensures Accepts(meaning, cd, c, v) ==> Accepts(meaning, bd, b, v)
  {
    hide SchemaFate, SchemaClean, Covered, PlainRefs, Accepts;
    if Accepts(meaning, cd, c, v) {
      AcceptanceCarriesOver(meaning, cd, bd, c, b, Response, stack, v);
    }
  }
}
