/** The hypotheses of the main theorems about the compatibility checker can be met. */
module Witnesses {
  import opened Json
  import opened Reference
  import opened SchemaRules
  import opened SchemaOrder
  import opened Semantics
  import opened Version
  import opened Soundness
  import opened DocumentRules
  import opened DocumentOrder
  import opened Calls
  import opened Gaps

  function AtMost(length: real): Object {
    map["maxLength" := Num(length, false)]
  }

  /** A request limit that is raised is compatible and within the fragment of the soundness theorem. */
  lemma RaisedLimitIsCovered(was: real, now: real)
    requires was <= now
    ensures Compatible(BLANK, BLANK, Obj(AtMost(was)), Obj(AtMost(now)), Request, 1)
    ensures Covered(BLANK, BLANK, Obj(AtMost(was)), Obj(AtMost(now)), 1)
    ensures PlainRefs(BLANK) && PlainRefs(Obj(AtMost(now)))
  {
    hide Compatible, NodeClean, Covered;
    BoundOnly(AtMost(was), AtMost(now), "maxLength", Request);
    FlatCompatible(BLANK, BLANK, AtMost(was), AtMost(now), Request);
    LimitCovered(BLANK, BLANK, was, now);
  }

  lemma LimitCovered(bd: Json, cd: Json, was: real, now: real)
    ensures Covered(bd, cd, Obj(AtMost(was)), Obj(AtMost(now)), 1)
  {
    hide Readable, Resolve, CompositionsKept;
    var b, c := AtMost(was), AtMost(now);
    NoReference(bd, b);
    NoReference(cd, c);
    SimpleReadable(bd, cd, b, c);
    SimpleCompositions(bd, cd, Obj(b), Obj(c));
    assert Get(b, "items") == Null && Get(c, "items") == Null && SharedNames(b, c) == {};
  }

  // ---- schemas of a limit and members only ----

  predicate Simple(m: Object) {
    && m.Keys <= {"maxLength", "properties"}
    && ("maxLength" in m ==> m["maxLength"].Num?)
  }

  lemma ExactAbsent(m: Object)
    requires Simple(m)
    ensures forall i :: 0 <= i < |EXACT_KEYWORDS| ==> Get(m, EXACT_KEYWORDS[i]) == Null
  {
  }

  lemma UnreadAbsent(m: Object)
    requires Simple(m)
    ensures forall k :: k in UNREAD_KEYWORDS ==> Get(m, k) == Null
  {
  }

  lemma SimpleComposed(m: Object)
    requires Simple(m)
    ensures ComposedOf(m, {})
  {
  }

  lemma NothingShared(d1: Json, d2: Json)
    ensures Shared(d1, d2, {})
  {
  }

  /** Such schemas compose nothing, so no reference has to be kept. */
  lemma SimpleCompositions(pd: Json, qd: Json, p: Json, q: Json)
    requires Simple(ResolvedFields(qd, q))
    ensures CompositionsKept(pd, qd, p, q)
  {
    hide ResolvedFields, Unseen, Simple, ComposedOf, Shared;
    var none: set<string> := {};
    NothingShared(pd, qd);
    SimpleComposed(ResolvedFields(qd, q));
    assert Unseen(pd, p) * none == none == Unseen(qd, q) * none;
    assert KeptReferences(pd, qd, p, q, none);
  }

  lemma SimpleTyped(m: Object)
    requires Simple(m)
    ensures WellTyped(m)
  {
  }

  lemma SimpleNames(pd: Json, qd: Json, p: Object, q: Object)
    requires Simple(p) && Simple(q) && Properties(p).Keys == Properties(q).Keys
    ensures NamesKept(pd, qd, p, q) && "const" !in q
  {
    hide Frozen, Properties;
  }

  /** Such schemas are within the fragment if they name the same members. */
  lemma SimpleReadable(pd: Json, qd: Json, p: Object, q: Object)
    requires Simple(p) && Simple(q) && Properties(p).Keys == Properties(q).Keys
    ensures Readable(pd, qd, p, q)
  {
    hide Simple, NamesKept, UnreadKept, WellTyped;
    ExactAbsent(p);
    ExactAbsent(q);
    UnreadAbsent(q);
    SimpleTyped(p);
    SimpleNames(pd, qd, p, q);
  }

  // ---- whole documents ----

  const NAME: ParameterKey := (Str("query"), Str("like"))

  /** A schema with one named member. */
  function Item(length: real): Object {
    map["properties" := Obj(map["name" := Obj(AtMost(length))])]
  }

  const LIKE: Object := map["in" := Str("query"), "name" := Str("like"), "required" := Bool(true), "schema" := TO_A]

  const MEDIA: Object := map["application/json" := Obj(map["schema" := TO_A])]

  const BODY: Object := map["required" := Bool(true), "content" := Obj(MEDIA)]

  const POST: Object := map["parameters" := Arr([Obj(LIKE)]), "requestBody" := Obj(BODY)]

  /** An operation with a parameter and a body that refer to one schema of the document. */
  function Served(length: real): Json {
    Obj(map["A" := Obj(Item(length)), "paths" := Obj(map["/items" := Obj(map["post" := Obj(POST)])])])
  }

  const POSTING: Operation := Operation(Arr([]), POST)

  lemma ServedOperation(length: real)
    ensures var doc := Served(length);
            && "/items" in Paths(doc) && "post" in PathItem(doc, "/items")
            && "post" in Verbs(PathItem(doc, "/items"))
            && OperationOf(PathItem(doc, "/items"), "post") == POSTING
            && Paths(doc).Keys == {"/items"} && PathItem(doc, "/items").Keys == {"post"}
            && ProblemCodes(doc) == {} && SecuritySchemes(doc) == map[]
  {
    var doc := Served(length);
    assert Paths(doc) == map["/items" := Obj(map["post" := Obj(POST)])];
    assert PathItem(doc, "/items") == map["post" := Obj(POST)];
    assert "post" in HTTP_METHODS;
    assert Get(Fields(doc), "x-simula-stable-problem-codes") == Null && Get(Fields(doc), "components") == Null;
  }

  lemma PostingParts()
    ensures POSTING.Parameters() == [Obj(LIKE)] && POSTING.Body() == Obj(BODY) && POSTING.Responses() == map[]
  {
    assert Get(POST, "responses") == Null;
  }

  lemma PlainMap(m: Object)
    requires "$ref" !in m && forall k :: k in m ==> PlainRefs(m[k])
    ensures PlainRefs(Obj(m))
  {
  }

  lemma PlainScalars()
    ensures PlainRefs(TO_A)
    ensures forall s :: PlainRefs(Str(s))
    ensures forall b :: PlainRefs(Bool(b))
    ensures forall n, f :: PlainRefs(Num(n, f))
  {
  }

  lemma ServedPlain(length: real)
    ensures PlainRefs(Served(length))
  {
    hide PlainRefs;
    PlainScalars();
    PlainMap(AtMost(length));
    PlainMap(map["name" := Obj(AtMost(length))]);
    PlainMap(Item(length));
    PlainPost();
    PlainMap(map["post" := Obj(POST)]);
    PlainMap(map["/items" := Obj(map["post" := Obj(POST)])]);
    PlainMap(Fields(Served(length)));
  }

  lemma PlainPost()
    ensures PlainRefs(Obj(POST))
  {
    hide PlainRefs;
    PlainScalars();
    PlainMap(LIKE);
    PlainList(Obj(LIKE));
    PlainMap(map["schema" := TO_A]);
    PlainMap(MEDIA);
    PlainMap(BODY);
    PlainMap(POST);
  }

  lemma PlainList(j: Json)
    requires PlainRefs(j)
    ensures PlainRefs(Arr([j]))
  {
  }

  // ---- its schema ----

  lemma SchemaFound(length: real)
    ensures var doc := Served(length);
            && Resolve(doc, TO_A) == Resolved(Obj(Item(length))) && ResolvedFields(doc, TO_A) == Item(length)
            && Properties(Item(length)) == map["name" := Obj(AtMost(length))]
            && RefOf(Obj(Item(length))).None?
  {
    hide Target;
    TargetHeld(Served(length));
    assert RefOf(TO_A) == Some("#/A");
    assert ResolveFrom(Served(length), Obj(Item(length)), {} + {"#/A"}) == Resolved(Obj(Item(length)));
  }

  lemma ItemCompatible(bd: Json, cd: Json, was: real, now: real)
    requires was <= now && bd == Served(was) && cd == Served(now)
    ensures Compatible(bd, cd, TO_A, TO_A, Request, 2)
  {
    hide Compatible, CompatibleBelow, NodeClean, Resolve, Served;
    SchemaFound(was);
    SchemaFound(now);
    BoundOnly(AtMost(was), AtMost(now), "maxLength", Request);
    FlatCompatible(bd, cd, AtMost(was), AtMost(now), Request);
    MembersOnly(was, now);
    CompatibleFromParts(bd, cd, Item(was), Item(now), Request, 1);
    CompatibleAscends(bd, cd, TO_A, TO_A, Request, 2);
  }

  lemma MembersOnly(was: real, now: real)
    ensures NodeClean(Item(was), Item(now), Request) && "items" !in Item(was)
  {
    hide NodeClean;
    SilentClean(Item(was), Item(now), Request);
  }

  lemma ItemCovered(bd: Json, cd: Json, was: real, now: real)
    requires bd == Served(was) && cd == Served(now)
    ensures Covered(bd, cd, TO_A, TO_A, 2)
  {
    hide Readable, Resolve, Served, CompositionsKept;
    SchemaFound(was);
    SchemaFound(now);
    LimitCovered(bd, cd, was, now);
    SimpleReadable(bd, cd, Item(was), Item(now));
    SimpleCompositions(bd, cd, TO_A, TO_A);
    assert Get(Item(was), "items") == Null && Get(Item(now), "items") == Null;
    assert CoveredBelow(bd, cd, Item(was), Item(now), 2);
  }

  const NAMELESS: Json := Obj(map["name" := Str("")])

  /** The reference to the schema accepts a member of no characters. */
  lemma ItemAccepts(meaning: Meaning, length: real)
    requires 0.0 <= length
    ensures Accepts(meaning, Served(length), TO_A, NAMELESS)
  {
    hide Valid, Served, Refs;
    var doc := Served(length);
    var unseen := Refs(doc) + Refs(TO_A);
    RefAmongRefs(TO_A);
    SchemaHeld(length);
    ItemValid(meaning, doc, length, unseen - {"#/A"});
    ThroughA(meaning, doc, NAMELESS, unseen);
  }

  lemma SchemaHeld(length: real)
    ensures "A" in Fields(Served(length)) && Fields(Served(length))["A"] == Obj(Item(length))
  {
  }

  lemma ItemValid(meaning: Meaning, doc: Json, length: real, unseen: set<string>)
    requires 0.0 <= length
    ensures Valid(meaning, doc, Obj(Item(length)), NAMELESS, unseen)
  {
    hide Asserts, ValidMembers, ValidCompositions;
    Inclusion.SilentAssertions(meaning, Item(length), NAMELESS);
    Inclusion.SilentCompositions(meaning, doc, Item(length), NAMELESS, unseen);
    ItemMembers(meaning, doc, length);
    assert ValidItems(meaning, doc, Item(length), NAMELESS);
  }

  lemma ItemMembers(meaning: Meaning, doc: Json, length: real)
    requires 0.0 <= length
    ensures ValidMembers(meaning, doc, Item(length), NAMELESS)
  {
    hide Accepts;
    LimitAccepts(meaning, doc, length);
    assert Properties(Item(length)) == map["name" := Obj(AtMost(length))];
    assert PatternProperties(Item(length)) == map[];
  }

  lemma LimitAccepts(meaning: Meaning, doc: Json, length: real)
    requires 0.0 <= length
    ensures Accepts(meaning, doc, Obj(AtMost(length)), Str(""))
  {
    hide Asserts, ValidCompositions;
    LimitAsserts(meaning, length);
    LimitComposes(meaning, doc, length, Refs(doc) + Refs(Obj(AtMost(length))));
  }

  lemma LimitComposes(meaning: Meaning, doc: Json, length: real, unseen: set<string>)
    ensures ValidCompositions(meaning, doc, AtMost(length), Str(""), unseen)
  {
    hide Valid, ValidAt;
    var m := AtMost(length);
    assert "allOf" !in m && "anyOf" !in m && "oneOf" !in m && "not" !in m;
  }

  lemma LimitAsserts(meaning: Meaning, length: real)
    requires 0.0 <= length
    ensures Asserts(meaning, AtMost(length), Str(""))
  {
    var m := AtMost(length);
    assert forall k :: k != "maxLength" ==> Get(m, k) == Null;
  }

  // ---- the call ----

  lemma LikeDeclared(doc: Json)
    ensures ParameterMap(doc, [Obj(LIKE)]) == map[NAME := LIKE]
    ensures Resolve(doc, Obj(LIKE)).Resolved? && ResolvedFields(doc, Obj(LIKE)) == LIKE
    ensures EntrySlot(doc, Obj(LIKE)) == NAME && Get(LIKE, "schema") == TO_A && IsRequired(LIKE)
    ensures HeldContent(LIKE) == map[]
  {
    NoReference(doc, LIKE);
    assert [Obj(LIKE)][..0] == [];
  }

  lemma BodyHeld(doc: Json)
    ensures Resolve(doc, Obj(BODY)).Resolved? && BodyMedia(doc, Obj(BODY)) == map["application/json" := TO_A]
  {
    NoReference(doc, BODY);
    assert Get(BODY, "content") == Obj(MEDIA);
  }

  lemma PostingQuiet(bd: Json, cd: Json, was: real, now: real)
    requires was <= now && bd == Served(was) && cd == Served(now)
    ensures OperationQuiet(bd, cd, POSTING, POSTING, 2)
  {
    hide OperationQuiet, ParametersQuiet, BodyQuiet, ResponseQuiet, Compatible, PyEq, Served;
    PostingParts();
    ItemCompatible(bd, cd, was, now);
    LikeQuiet(bd, cd);
    BodyIsQuiet(bd, cd);
    KeywordsReflexive(POSTING.fields);
    OperationShape(bd, cd, POSTING, POSTING, 2);
  }

  lemma BodyIsQuiet(bd: Json, cd: Json)
    requires Compatible(bd, cd, TO_A, TO_A, Request, 2)
    ensures BodyQuiet(bd, cd, Obj(BODY), Obj(BODY), 2)
  {
    hide BodyQuiet, SlotsQuiet, Resolve, Compatible, BodyMedia;
    BodyHeld(bd);
    BodyHeld(cd);
    SlotsFromEach(bd, cd, BodyMedia(bd, Obj(BODY)), BodyMedia(cd, Obj(BODY)), Request, 2);
    SameBody(bd, cd);
    BodyShape(bd, cd, Obj(BODY), Obj(BODY), 2);
  }

  lemma SameBody(bd: Json, cd: Json)
    ensures ResolvedFields(bd, Obj(BODY)) == ResolvedFields(cd, Obj(BODY)) == BODY
  {
    NoReference(bd, BODY);
    NoReference(cd, BODY);
  }

  lemma LikeQuiet(bd: Json, cd: Json)
    requires Compatible(bd, cd, TO_A, TO_A, Request, 2)
    ensures ParametersQuiet(bd, cd, [Obj(LIKE)], [Obj(LIKE)], 2)
  {
    hide SlotsFate, SlotsClean, ParameterMap, Resolve, Compatible;
    LikeDeclared(bd);
    LikeDeclared(cd);
    var slots := ParameterSchemas(map[NAME := LIKE]);
    assert slots == map[NAME := TO_A];
    SlotsFromEach(bd, cd, slots, slots, Request, 2);
  }

  lemma PostingCovered(bd: Json, cd: Json, was: real, now: real)
    requires bd == Served(was) && cd == Served(now)
    ensures OperationCovered(bd, cd, POSTING, POSTING, 2)
  {
    hide Covered, ParameterMap, Resolve, Served, KeysMatchSlots, BodyMedia;
    PostingParts();
    ItemCovered(bd, cd, was, now);
    LikeDeclared(bd);
    LikeDeclared(cd);
    BodyHeld(bd);
    BodyHeld(cd);
    LoneEntryMatches(bd, Obj(LIKE));
    LoneEntryMatches(cd, Obj(LIKE));
    assert ParameterSchemas(map[NAME := LIKE]) == map[NAME := TO_A];
  }

  const LIKING: Call := Call("/items", "post", map[NAME := NAMELESS], Some(Payload("application/json", NAMELESS)))

  lemma PostingAccepts(meaning: Meaning, length: real)
    requires 0.0 <= length
    ensures OperationAccepts(meaning, Served(length), POSTING, LIKING)
  {
    hide Accepts, ParameterMap, Resolve, Served, BodyMedia, EntrySlot;
    var doc := Served(length);
    PostingParts();
    ItemAccepts(meaning, length);
    LikeDeclared(doc);
    BodyHeld(doc);
    assert EntrySlot(doc, [Obj(LIKE)][0]) == NAME;
  }

  /** A document, one whose limit is raised, and a call meet the hypotheses of call compatibility. */
  lemma ServedDocumentIsCompatible(meaning: Meaning, was: real, now: real)
    requires 0.0 <= was <= now
    ensures DocumentQuiet(Served(was), Served(now), 2) && MajorVersion(Served(now)) <= MajorVersion(Served(was))
    ensures DocumentCovered(Served(was), Served(now), 2) && PlainRefs(Served(now))
    ensures CallValid(meaning, Served(was), LIKING)
  {
    hide OperationQuiet, OperationCovered, Paths, PathItem, ProblemCodes, SecuritySchemes, PlainRefs, Accepts, Served,
      PyEq, DocumentQuiet, OperationOf, OperationAccepts, CallValid;
    var bd, cd := Served(was), Served(now);
    ServedOperation(was);
    ServedOperation(now);
    PostingQuiet(bd, cd, was, now);
    PostingCovered(bd, cd, was, now);
    PostingAccepts(meaning, was);
    LikingReaches(meaning, bd);
    ServedPlain(now);
    NoBump(was, now);
    DocumentShape(bd, cd, 2);
    forall p | p in Paths(bd) ensures PathQuiet(bd, cd, p, 2) {
      forall v | v in Verbs(PathItem(bd, p)) ensures ItemQuiet(bd, cd, p, v, 2) {
      }
    }
  }

  lemma LikingReaches(meaning: Meaning, doc: Json)
    requires "/items" in Paths(doc) && "post" in Verbs(PathItem(doc, "/items"))
    requires OperationAccepts(meaning, doc, OperationOf(PathItem(doc, "/items"), "post"), LIKING)
    ensures CallValid(meaning, doc, LIKING)
  {
    hide OperationAccepts;
  }

  lemma NoBump(was: real, now: real)
    ensures MajorVersion(Served(now)) <= MajorVersion(Served(was))
  {
    assert Get(Fields(Served(was)), "info") == Get(Fields(Served(now)), "info") == Null;
  }

  // ---- recursion below a composition ----

  /** A schema that refers to itself below `anyOf`. */
  const LIST: Object := map["anyOf" := Arr([Obj(map["properties" := Obj(map["next" := TO_A])])])]

  lemma ListFound()
    ensures Resolve(Holding(Obj(LIST)), TO_A) == Resolved(Obj(LIST))
    ensures ResolvedFields(Holding(Obj(LIST)), TO_A) == LIST
  {
    ParameterThroughA(Obj(LIST));
  }

  /** It is compared with itself in silence at every stack, and within the fragment all the way. */
  lemma RecursionIsCovered(direction: Direction, stack: nat)
    requires stack > 0
    ensures Compatible(Holding(Obj(LIST)), Holding(Obj(LIST)), TO_A, TO_A, direction, stack)
    ensures Covered(Holding(Obj(LIST)), Holding(Obj(LIST)), TO_A, TO_A, stack)
  {
    hide Compatible, CompatibleBelow, Covered, Typed, NodeClean, Resolve, Holding;
    var doc := Holding(Obj(LIST));
    ListFound();
    NodeReflexive(LIST, direction);
    assert Properties(LIST) == map[] && "items" !in LIST;
    CompatibleFromParts(doc, doc, LIST, LIST, direction, stack - 1);
    CompatibleAscends(doc, doc, TO_A, TO_A, direction, stack);
    ListTyped(stack);
    CoveredInPlace(doc, TO_A, stack);
  }

  lemma ListTyped(n: nat)
    ensures Typed(Holding(Obj(LIST)), TO_A, n)
  {
    hide Resolve, Holding, WellTyped, Get;
    ListFound();
    ListKeywords();
    if n > 0 {
      assert Typed(Holding(Obj(LIST)), Null, n - 1);
      assert TypedBelow(Holding(Obj(LIST)), LIST, n - 1);
    }
  }

  lemma ListKeywords()
    ensures WellTyped(LIST) && Get(LIST, "$dynamicRef") == Null
    ensures Properties(LIST) == map[] && Get(LIST, "items") == Null
  {
    assert forall k :: k != "anyOf" ==> Get(LIST, k) == Null;
  }
}
