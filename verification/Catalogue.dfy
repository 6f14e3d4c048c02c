/** What each entry of the report says about the two documents, in terms of their own members. */
module Catalogue {
  import opened Json
  import opened Reference
  import opened SchemaRules
  import opened SchemaChanges
  import opened DocumentRules
  import opened DocumentChanges
  import opened Version
  import opened Soundness

  // ---- which part of the comparison makes which entries ----

  predicate OfSchema(kind: Kind) {
    kind in {SchemaRemoved, TypeChanged, TypeAdded, TypeRemoved, ConstChanged, ValueChanged, EnumChanged, EnumAdded,
             EnumRemoved, RequiredAdded, RequiredRemoved, PropertyRemoved, BoundChanged, BoundAdded, BoundRemoved,
             PatternChanged, CompositionChanged, AdditionalForbidden, AdditionalAllowed}
  }

  lemma {:induction false} SchemaKinds(bd: Json, cd: Json, b: Json, c: Json, at: Location, direction: Direction,
                                       stack: nat)
    ensures forall x :: x in SchemaFound(bd, cd, b, c, at, direction, stack) ==> OfSchema(x.kind)
    decreases stack, 0
  {
    hide ResolvedFound, Resolve, OfSchema;
    assert OfSchema(SchemaRemoved) by {
      Named();
    }
    if stack > 0 && Descends(bd, cd, b, c) {
      ResolvedKinds(bd, cd, ResolvedFields(bd, b), ResolvedFields(cd, c), at, direction, stack - 1);
    }
  }

  lemma Named()
    ensures OfSchema(SchemaRemoved) && OfSchema(PropertyRemoved) && OfSchema(AdditionalForbidden)
    ensures OfSchema(AdditionalAllowed) && OfSchema(CompositionChanged)
  {
  }

  lemma {:induction false} ResolvedKinds(bd: Json, cd: Json, b: Object, c: Object, at: Location, direction: Direction,
                                         stack: nat)
    ensures forall x :: x in ResolvedFound(bd, cd, b, c, at, direction, stack) ==> OfSchema(x.kind)
    decreases stack, 3
  {
    hide AssertionsFound, BoundsFound, PropertiesFound, ItemsFound, OfSchema, SameKeyword;
    Named();
    AssertionKinds(b, c, at, direction);
    BoundKinds(b, c, at, direction);
    forall k | k in Properties(b)
      ensures forall x :: x in PropertyFound(bd, cd, b, c, k, at, direction, stack) ==> OfSchema(x.kind)
    {
      PropertyKinds(bd, cd, b, c, k, at, direction, stack);
    }
    PropertiesMembers(bd, cd, b, c, at, direction, stack);
    ItemsKinds(bd, cd, b, c, at, direction, stack);
  }

  lemma PropertiesMembers(bd: Json, cd: Json, b: Object, c: Object, at: Location, direction: Direction, stack: nat)
    ensures forall x :: x in PropertiesFound(bd, cd, b, c, at, direction, stack) ==>
                          exists k :: k in Properties(b) && x in PropertyFound(bd, cd, b, c, k, at, direction, stack)
  {
    hide PropertyFound;
  }

  lemma {:induction false} ItemsKinds(bd: Json, cd: Json, b: Object, c: Object, at: Location, direction: Direction,
                                      stack: nat)
    ensures forall x :: x in ItemsFound(bd, cd, b, c, at, direction, stack) ==> OfSchema(x.kind)
    decreases stack, 1
  {
    hide SchemaFound, OfSchema;
    if "items" in b {
      SchemaKinds(bd, cd, b["items"], Get(c, "items"), Under(at, "items"), direction, stack);
    }
  }

  lemma {:induction false} PropertyKinds(bd: Json, cd: Json, b: Object, c: Object, k: string, at: Location,
                                         direction: Direction, stack: nat)
    requires k in Properties(b)
    ensures forall x :: x in PropertyFound(bd, cd, b, c, k, at, direction, stack) ==> OfSchema(x.kind)
    decreases stack, 1
  {
    hide SchemaFound, OfSchema;
    Named();
    if k in Properties(c) {
      SchemaKinds(bd, cd, Properties(b)[k], Properties(c)[k], Under(Under(at, "properties"), k), direction, stack);
    }
  }

  lemma AssertionKinds(b: Object, c: Object, at: Location, direction: Direction)
    ensures forall x :: x in AssertionsFound(b, c, at, direction) ==> OfSchema(x.kind)
  {
    hide SameKeyword, Types, Required, PyEq;
  }

  lemma BoundKinds(b: Object, c: Object, at: Location, direction: Direction)
    ensures forall x :: x in BoundsFound(b, c, at, direction) ==> OfSchema(x.kind)
  {
    hide SameKeyword, OfSchema;
    assert OfSchema(PatternChanged) by {
      Bounds();
    }
    forall k, lower ensures forall x :: x in BoundFoundAt(b, c, at, direction, k, lower) ==> OfSchema(x.kind) {
      OneBoundKinds(b, c, at, direction, k, lower);
    }
  }

  lemma Bounds()
    ensures OfSchema(PatternChanged) && OfSchema(BoundChanged) && OfSchema(BoundAdded) && OfSchema(BoundRemoved)
  {
  }

  lemma OneBoundKinds(b: Object, c: Object, at: Location, direction: Direction, k: string, lower: bool)
    ensures forall x :: x in BoundFoundAt(b, c, at, direction, k, lower) ==> OfSchema(x.kind)
  {
    hide OfSchema;
    Bounds();
  }

  lemma ContentKinds(bd: Json, cd: Json, was: Json, now: Json, at: Location, direction: Direction, stack: nat)
    ensures forall x :: x in ContentFound(bd, cd, was, now, at, direction, stack) ==>
                          OfSchema(x.kind) || x.kind == MediaTypeRemoved
  {
    hide SchemaFound, OfSchema;
    forall k | k in Fields(was) && k in Fields(now)
      ensures forall x :: x in MediaFound(bd, cd, Fields(was), Fields(now), k, at, direction, stack) ==>
                            OfSchema(x.kind)
    {
      SchemaKinds(bd, cd, Get(Fields(Fields(was)[k]), "schema"), Get(Fields(Fields(now)[k]), "schema"),
                  Under(Under(at, k), "schema"), direction, stack);
    }
  }

  lemma HeaderKinds(bd: Json, cd: Json, was: Object, now: Object, at: Location, stack: nat)
    ensures forall x :: x in HeadersFound(bd, cd, was, now, was.Keys, at, stack) ==>
                          OfSchema(x.kind) || x.kind == HeaderRemoved
  {
    hide SchemaFound, OfSchema, HeaderSchema;
    forall k | k in was && k in now
      ensures forall x :: x in SchemaFound(bd, cd, HeaderSchema(bd, was[k]), HeaderSchema(cd, now[k]),
                                           Under(Under(Under(at, "headers"), k), "schema"), Response, stack) ==>
                            OfSchema(x.kind)
    {
      SchemaKinds(bd, cd, HeaderSchema(bd, was[k]), HeaderSchema(cd, now[k]),
                  Under(Under(Under(at, "headers"), k), "schema"), Response, stack);
    }
  }

  lemma ParameterKinds(bd: Json, cd: Json, was: Parameters, now: Parameters, k: ParameterKey, at: Location, stack: nat)
    requires k in was
    ensures forall x :: x in ParameterFound(bd, cd, was, now, k, at, stack) ==>
              || OfSchema(x.kind)
              || (x == Change(ParameterPlace(at, k), ParameterRemoved) && k !in now)
              || (x == Change(ParameterPlace(at, k), ParameterRequired)
                  && k in now && !IsRequired(was[k]) && IsRequired(now[k]))
  {
    hide SchemaFound, OfSchema, IsRequired, ParameterPlace;
    if k in now {
      SchemaKinds(bd, cd, Get(was[k], "schema"), Get(now[k], "schema"), Under(ParameterPlace(at, k), "schema"), Request,
                  stack);
    }
  }

  lemma ResponseKinds(bd: Json, cd: Json, was: Json, now: Json, at: Location, stack: nat)
    ensures forall x :: x in ResponseFound(bd, cd, was, now, at, stack) ==>
                          OfSchema(x.kind) || x.kind == MediaTypeRemoved || x.kind == HeaderRemoved
  {
    hide ContentFound, HeadersFound, OfSchema, Resolve, Headers;
    var b, c := ResolvedFields(bd, was), ResolvedFields(cd, now);
    HeaderKinds(bd, cd, Headers(b), Headers(c), at, stack);
    ContentKinds(bd, cd, Get(b, "content"), Get(c, "content"), Under(at, "content"), Response, stack);
  }

  // ---- what is found in an operation ----

  /** Parameters: removed, new and required, or newly required ones are entered, each at its own place. */
  lemma ParameterEntries(bd: Json, cd: Json, was: seq<Json>, now: seq<Json>, k: ParameterKey, at: Location, stack: nat)
    ensures var olds, news := ParameterMap(bd, was), ParameterMap(cd, now);
            var found := ParametersFound(bd, cd, was, now, at, stack);
            && (Change(at + [Str("parameters"), k.0, k.1], ParameterRemoved) in found <==> k in olds && k !in news)
            && (Change(at + [Str("parameters"), k.0, k.1], ParameterAdded) in found <==>
                  k in news && k !in olds && Truthy(Get(news[k], "required")))
            && (Change(at + [Str("parameters"), k.0, k.1], ParameterRequired) in found <==>
                  k in olds && k in news && !Truthy(Get(olds[k], "required")) && Truthy(Get(news[k], "required")))
  {
    hide SharedFound, AddedFound, ParameterMap;
    var olds, news := ParameterMap(bd, was), ParameterMap(cd, now);
    SharedEntries(bd, cd, olds, news, k, at, stack);
    AddedEntries(olds, news, k, at);
  }

  lemma AddedEntries(was: Parameters, now: Parameters, k: ParameterKey, at: Location)
    ensures Change(ParameterPlace(at, k), ParameterAdded) in AddedFound(was, now, now.Keys, at) <==>
              k in now && k !in was && IsRequired(now[k])
    ensures forall x :: x in AddedFound(was, now, now.Keys, at) ==> x.kind == ParameterAdded
  {
    hide IsRequired, ParameterPlace;
    SamePlace(at);
  }

  lemma SharedEntries(bd: Json, cd: Json, was: Parameters, now: Parameters, k: ParameterKey, at: Location, stack: nat)
    ensures var found := SharedFound(bd, cd, was, now, was.Keys, at, stack);
            && (Change(ParameterPlace(at, k), ParameterRemoved) in found <==> k in was && k !in now)
            && (Change(ParameterPlace(at, k), ParameterRequired) in found <==>
                  k in was && k in now && !IsRequired(was[k]) && IsRequired(now[k]))
            && Change(ParameterPlace(at, k), ParameterAdded) !in found
  {
    hide SharedFound, ParameterFound, OfSchema, IsRequired, ParameterPlace;
    NotOfSchema();
    SamePlace(at);
    SharedMembers(bd, cd, was, now, at, stack);
    forall j | j in was
      ensures Change(ParameterPlace(at, k), ParameterRemoved) in ParameterFound(bd, cd, was, now, j, at, stack) ==>
                j == k && k !in now
      ensures Change(ParameterPlace(at, k), ParameterRequired) in ParameterFound(bd, cd, was, now, j, at, stack) ==>
                j == k && k in now && !IsRequired(was[k]) && IsRequired(now[k])
      ensures Change(ParameterPlace(at, k), ParameterAdded) !in ParameterFound(bd, cd, was, now, j, at, stack)
    {
      ParameterKinds(bd, cd, was, now, j, at, stack);
    }
    if k in was {
      ParameterEntered(bd, cd, was, now, k, at, stack);
    }
  }

  lemma SharedMembers(bd: Json, cd: Json, was: Parameters, now: Parameters, at: Location, stack: nat)
    ensures forall x :: x in SharedFound(bd, cd, was, now, was.Keys, at, stack) ==>
                          exists j :: j in was && x in ParameterFound(bd, cd, was, now, j, at, stack)
  {
    hide ParameterFound;
  }

  lemma ParameterEntered(bd: Json, cd: Json, was: Parameters, now: Parameters, k: ParameterKey, at: Location,
                         stack: nat)
    requires k in was
    ensures k !in now ==>
              Change(ParameterPlace(at, k), ParameterRemoved) in SharedFound(bd, cd, was, now, was.Keys, at, stack)
    ensures k in now && !IsRequired(was[k]) && IsRequired(now[k]) ==>
              Change(ParameterPlace(at, k), ParameterRequired) in SharedFound(bd, cd, was, now, was.Keys, at, stack)
  {
    hide SchemaFound, IsRequired, ParameterPlace;
    assert ParameterFound(bd, cd, was, now, k, at, stack) <= SharedFound(bd, cd, was, now, was.Keys, at, stack);
  }

  lemma SamePlace(at: Location)
    ensures forall j, k :: ParameterPlace(at, j) == ParameterPlace(at, k) ==> j == k
  {
    forall j, k | ParameterPlace(at, j) == ParameterPlace(at, k) ensures j == k {
      assert ParameterPlace(at, j)[|at| + 1] == ParameterPlace(at, k)[|at| + 1];
      assert ParameterPlace(at, j)[|at| + 2] == ParameterPlace(at, k)[|at| + 2];
    }
  }

  lemma NotOfSchema()
    ensures !OfSchema(ParameterRemoved) && !OfSchema(ParameterRequired) && !OfSchema(ParameterAdded)
    ensures !OfSchema(RequestBodyRemoved) && !OfSchema(RequestBodyAdded) && !OfSchema(RequestBodyRequired)
    ensures !OfSchema(ResponseRemoved) && !OfSchema(PathRemoved) && !OfSchema(OperationRemoved)
    ensures !OfSchema(OperationIdChanged) && !OfSchema(SecurityChanged)
    ensures !OfSchema(MediaTypeRemoved) && !OfSchema(HeaderRemoved)
  {
  }

  /** The request body: removed, new and required, or newly required. */
  lemma BodyEntries(bd: Json, cd: Json, was: Json, now: Json, at: Location, stack: nat)
    ensures var found := BodyFound(bd, cd, was, now, at, stack);
            var place := at + [Str("requestBody")];
            var mustBefore := Truthy(Get(ResolvedFields(bd, was), "required"));
            var mustNow := Truthy(Get(ResolvedFields(cd, now), "required"));
            && (Change(place, RequestBodyRemoved) in found <==> was != Null && now == Null)
            && (Change(place, RequestBodyAdded) in found <==> was == Null && now != Null && mustNow)
            && (Change(place, RequestBodyRequired) in found <==>
                  was != Null && now != Null && !mustBefore && mustNow)
  {
    hide ContentFound, ResolvedFields, OfSchema;
    NotOfSchema();
    var b, c := ResolvedFields(bd, was), ResolvedFields(cd, now);
    ContentKinds(bd, cd, Get(b, "content"), Get(c, "content"), Under(Under(at, "requestBody"), "content"), Request,
                 stack);
  }

  /** Responses: a status that is gone. */
  lemma ResponseEntries(bd: Json, cd: Json, was: Object, now: Object, status: string, at: Location, stack: nat)
    ensures Change(at + [Str("responses"), Str(status)], ResponseRemoved)
            in ResponsesFound(bd, cd, was, now, was.Keys, at, stack)
            <==> status in was && status !in now
  {
    hide StatusFound;
    var entry := Change(at + [Str("responses"), Str(status)], ResponseRemoved);
    forall k | k in was ensures entry in StatusFound(bd, cd, was, now, k, at, stack) <==> k == status && k !in now {
      StatusEntries(bd, cd, was, now, k, status, at, stack);
    }
  }

  lemma StatusEntries(bd: Json, cd: Json, was: Object, now: Object, k: string, status: string, at: Location, stack: nat)
    requires k in was
    ensures Change(at + [Str("responses"), Str(status)], ResponseRemoved) in StatusFound(bd, cd, was, now, k, at, stack)
            <==> k == status && k !in now
  {
    hide ResponseFound, OfSchema;
    NotOfSchema();
    var place := Under(Under(at, "responses"), k);
    assert place[|at| + 1] == Str(k) && (at + [Str("responses"), Str(status)])[|at| + 1] == Str(status);
    assert place == at + [Str("responses"), Str(k)];
    if k in now {
      ResponseKinds(bd, cd, was[k], now[k], place, stack);
    }
  }

  /** Media types: one that is gone, of a body or of a response. */
  lemma MediaEntries(bd: Json, cd: Json, was: Json, now: Json, media: string, at: Location, direction: Direction,
                     stack: nat)
    ensures Change(at + [Str(media)], MediaTypeRemoved) in ContentFound(bd, cd, was, now, at, direction, stack)
            <==> media in Fields(was) && media !in Fields(now)
  {
    hide MediaFound, Fields;
    var entry := Change(at + [Str(media)], MediaTypeRemoved);
    forall k | k in Fields(was)
      ensures entry in MediaFound(bd, cd, Fields(was), Fields(now), k, at, direction, stack) <==>
                k == media && k !in Fields(now)
    {
      MediumEntries(bd, cd, Fields(was), Fields(now), k, media, at, direction, stack);
    }
  }

  lemma MediumEntries(bd: Json, cd: Json, was: Object, now: Object, k: string, media: string, at: Location,
                      direction: Direction, stack: nat)
    requires k in was
    ensures Change(at + [Str(media)], MediaTypeRemoved) in MediaFound(bd, cd, was, now, k, at, direction, stack)
            <==> k == media && k !in now
  {
    hide SchemaFound, OfSchema, Fields;
    NotOfSchema();
    assert Under(at, k)[|at|] == Str(k) && (at + [Str(media)])[|at|] == Str(media);
    if k in now {
      SchemaKinds(bd, cd, Get(Fields(was[k]), "schema"), Get(Fields(now[k]), "schema"), Under(Under(at, k), "schema"),
                  direction, stack);
    }
  }

  /** Headers of a response: one that is gone. */
  lemma HeaderEntries(bd: Json, cd: Json, was: Object, now: Object, header: string, at: Location, stack: nat)
    ensures Change(at + [Str("headers"), Str(header)], HeaderRemoved)
            in HeadersFound(bd, cd, was, now, was.Keys, at, stack)
            <==> header in was && header !in now
  {
    hide HeaderFound;
    var entry := Change(at + [Str("headers"), Str(header)], HeaderRemoved);
    forall k | k in was ensures entry in HeaderFound(bd, cd, was, now, k, at, stack) <==> k == header && k !in now {
      OneHeaderEntries(bd, cd, was, now, k, header, at, stack);
    }
  }

  lemma OneHeaderEntries(bd: Json, cd: Json, was: Object, now: Object, k: string, header: string, at: Location,
                         stack: nat)
    requires k in was
    ensures Change(at + [Str("headers"), Str(header)], HeaderRemoved) in HeaderFound(bd, cd, was, now, k, at, stack)
            <==> k == header && k !in now
  {
    hide SchemaFound, OfSchema, HeaderSchema;
    NotOfSchema();
    var place := Under(Under(at, "headers"), k);
    assert place[|at| + 1] == Str(k) && (at + [Str("headers"), Str(header)])[|at| + 1] == Str(header);
    assert place == at + [Str("headers"), Str(k)];
    if k in now {
      SchemaKinds(bd, cd, HeaderSchema(bd, was[k]), HeaderSchema(cd, now[k]), Under(place, "schema"), Response, stack);
    }
  }

  /** The identity of an operation. */
  lemma IdentityEntries(bd: Json, cd: Json, b: Operation, c: Operation, at: Location, stack: nat)
    ensures var found := OperationFound(bd, cd, b, c, at, stack);
            && (Change(at + [Str("operationId")], OperationIdChanged) in found <==>
                  !PyEq(Get(b.fields, "operationId"), Get(c.fields, "operationId")))
            && (Change(at + [Str("security")], SecurityChanged) in found <==>
                  !PyEq(Get(b.fields, "security"), Get(c.fields, "security")))
            && forall x :: x in found ==> !OfDocument(x.kind)
  {
    hide ParametersFound, BodyFound, ResponsesFound, OfSchema, PyEq;
    NotOfSchema();
    ParametersKinds(bd, cd, b.Parameters(), c.Parameters(), at, stack);
    BodyKinds(bd, cd, b.Body(), c.Body(), at, stack);
    ResponsesKinds(bd, cd, b.Responses(), c.Responses(), at, stack);
  }

  /** Entries about paths, operations as a whole and the document. */
  predicate OfDocument(kind: Kind) {
    kind in {PathRemoved, OperationRemoved, ProblemCodeRemoved, SecuritySchemeRemoved, SecuritySchemeChanged}
  }

  /** Entries about the parts of an operation. */
  predicate OfPart(kind: Kind) {
    !OfDocument(kind) && kind != OperationIdChanged && kind != SecurityChanged
  }

  lemma SchemaIsPart()
    ensures forall kind :: OfSchema(kind) ==> OfPart(kind)
    ensures OfPart(MediaTypeRemoved) && OfPart(HeaderRemoved) && OfPart(ResponseRemoved) && OfPart(ParameterAdded)
    ensures OfPart(ParameterRemoved) && OfPart(ParameterRequired) && OfPart(RequestBodyRemoved)
    ensures OfPart(RequestBodyAdded) && OfPart(RequestBodyRequired)
  {
  }

  lemma ParametersKinds(bd: Json, cd: Json, was: seq<Json>, now: seq<Json>, at: Location, stack: nat)
    ensures forall x :: x in ParametersFound(bd, cd, was, now, at, stack) ==> OfPart(x.kind)
  {
    hide SharedFound, AddedFound, ParameterFound, ParameterMap, OfSchema, OfPart;
    SchemaIsPart();
    var olds, news := ParameterMap(bd, was), ParameterMap(cd, now);
    AddedEntries(olds, news, (Null, Null), at);
    SharedMembers(bd, cd, olds, news, at, stack);
    forall j | j in olds ensures forall x :: x in ParameterFound(bd, cd, olds, news, j, at, stack) ==> OfPart(x.kind) {
      ParameterKinds(bd, cd, olds, news, j, at, stack);
    }
  }

  lemma BodyKinds(bd: Json, cd: Json, was: Json, now: Json, at: Location, stack: nat)
    ensures forall x :: x in BodyFound(bd, cd, was, now, at, stack) ==> OfPart(x.kind)
  {
    hide ContentFound, ResolvedFields, OfSchema, OfPart, IsRequired;
    SchemaIsPart();
    var b, c := ResolvedFields(bd, was), ResolvedFields(cd, now);
    ContentKinds(bd, cd, Get(b, "content"), Get(c, "content"), Under(Under(at, "requestBody"), "content"), Request,
                 stack);
  }

  lemma ResponsesKinds(bd: Json, cd: Json, was: Object, now: Object, at: Location, stack: nat)
    ensures forall x :: x in ResponsesFound(bd, cd, was, now, was.Keys, at, stack) ==> OfPart(x.kind)
  {
    hide ResponseFound, OfSchema, OfPart;
    SchemaIsPart();
    forall k | k in was && k in now
      ensures forall x :: x in ResponseFound(bd, cd, was[k], now[k], Under(Under(at, "responses"), k), stack) ==>
                            OfPart(x.kind)
    {
      ResponseKinds(bd, cd, was[k], now[k], Under(Under(at, "responses"), k), stack);
    }
  }

  // ---- what is found in a document ----

  /** The methods of OpenAPI 3.1.0, section 4.8.9.1. */
  const METHODS: set<string> := {"get", "put", "post", "delete", "options", "head", "patch", "trace"}

  function PathsOf(doc: Json): Object {
    Fields(Get(Fields(doc), "paths"))
  }

  lemma VerbEntries(bd: Json, cd: Json, was: Object, now: Object, v: string, at: Location, stack: nat)
    ensures Change(at + [Str(v)], OperationRemoved) in VerbsFound(bd, cd, was, now, Verbs(was), at, stack) <==>
              v in METHODS && v in was && v !in now
    ensures forall x :: x in VerbsFound(bd, cd, was, now, Verbs(was), at, stack) && OfDocument(x.kind) ==>
                          x.kind == OperationRemoved && exists w :: x.location == at + [Str(w)]
  {
    hide VerbFound, OfDocument;
    assert METHODS == HTTP_METHODS;
    VerbMembers(bd, cd, was, now, at, stack);
    assert v in Verbs(was) <==> v in METHODS && v in was;
    forall w | w in Verbs(was)
      ensures Change(at + [Str(v)], OperationRemoved) in VerbFound(bd, cd, was, now, w, at, stack) <==>
                w == v && v !in now
      ensures forall x :: x in VerbFound(bd, cd, was, now, w, at, stack) && OfDocument(x.kind) ==>
                            x.kind == OperationRemoved && exists u :: x.location == at + [Str(u)]
    {
      OneVerbEntries(bd, cd, was, now, w, v, at, stack);
    }
  }

  lemma VerbMembers(bd: Json, cd: Json, was: Object, now: Object, at: Location, stack: nat)
    ensures forall x :: x in VerbsFound(bd, cd, was, now, Verbs(was), at, stack) <==>
                          exists w :: w in Verbs(was) && x in VerbFound(bd, cd, was, now, w, at, stack)
  {
    hide VerbFound, Verbs;
  }

  lemma OneVerbEntries(bd: Json, cd: Json, was: Object, now: Object, w: string, v: string, at: Location, stack: nat)
    requires w in was
    ensures Change(at + [Str(v)], OperationRemoved) in VerbFound(bd, cd, was, now, w, at, stack) <==>
              w == v && v !in now
    ensures forall x :: x in VerbFound(bd, cd, was, now, w, at, stack) && OfDocument(x.kind) ==>
                          x.kind == OperationRemoved && exists w :: x.location == at + [Str(w)]
  {
    hide OperationFound, OfDocument;
    DocumentKinds();
    assert Under(at, w) == at + [Str(w)];
    assert Under(at, w)[|at|] == Str(w) && (at + [Str(v)])[|at|] == Str(v);
    if w in now {
      IdentityEntries(bd, cd, OperationOf(was, w), OperationOf(now, w), Under(at, w), stack);
    }
  }

  lemma DocumentKinds()
    ensures OfDocument(OperationRemoved) && OfDocument(PathRemoved) && OfDocument(ProblemCodeRemoved)
    ensures OfDocument(SecuritySchemeRemoved) && OfDocument(SecuritySchemeChanged)
  {
  }

  /** Paths and operations: an entry exactly for each one that the baseline has and the candidate does not. */
  lemma PathEntries(bd: Json, cd: Json, p: string, v: string, stack: nat)
    requires MajorVersion(cd) <= MajorVersion(bd)
    ensures Change([Str("paths"), Str(p)], PathRemoved) in DocumentFound(bd, cd, stack) <==>
              p in PathsOf(bd) && p !in PathsOf(cd)
    ensures Change([Str("paths"), Str(p), Str(v)], OperationRemoved) in DocumentFound(bd, cd, stack) <==>
              && p in PathsOf(bd) && p in PathsOf(cd)
              && v in METHODS && v in Fields(PathsOf(bd)[p]) && v !in Fields(PathsOf(cd)[p])
  {
    hide CodesFound, SecurityFound, PathsFound, PathFound, Paths, MajorVersion;
    CodeKinds(bd, cd);
    SchemeKinds(bd, cd);
    assert Paths(bd) == PathsOf(bd) && Paths(cd) == PathsOf(cd) by {
      SamePaths(bd);
      SamePaths(cd);
    }
    var noPath, noOperation := Change([Str("paths"), Str(p)], PathRemoved),
                               Change([Str("paths"), Str(p), Str(v)], OperationRemoved);
    PathsMembers(bd, cd, stack);
    forall q | q in Paths(bd)
      ensures noPath in PathFound(bd, cd, q, stack) <==> q == p && p !in Paths(cd)
      ensures noOperation in PathFound(bd, cd, q, stack) <==>
                && q == p && p in Paths(cd)
                && v in METHODS && v in PathItem(bd, p) && v !in PathItem(cd, p)
    {
      OnePathEntries(bd, cd, q, p, v, stack);
    }
    SameItems(bd, cd, p);
  }

  lemma SameItems(bd: Json, cd: Json, p: string)
    ensures p in Paths(bd) ==> PathItem(bd, p) == Fields(PathsOf(bd)[p])
    ensures p in Paths(cd) ==> PathItem(cd, p) == Fields(PathsOf(cd)[p])
  {
  }

  lemma SamePaths(doc: Json)
    ensures Paths(doc) == PathsOf(doc)
  {
  }

  lemma PathsMembers(bd: Json, cd: Json, stack: nat)
    ensures forall x :: x in PathsFound(bd, cd, Paths(bd).Keys, stack) <==>
                          exists q :: q in Paths(bd) && x in PathFound(bd, cd, q, stack)
  {
    hide PathFound, Paths;
  }

  lemma OnePathEntries(bd: Json, cd: Json, q: string, p: string, v: string, stack: nat)
    requires q in Paths(bd)
    ensures Change([Str("paths"), Str(p)], PathRemoved) in PathFound(bd, cd, q, stack) <==> q == p && p !in Paths(cd)
    ensures Change([Str("paths"), Str(p), Str(v)], OperationRemoved) in PathFound(bd, cd, q, stack) <==>
              && q == p && p in Paths(cd)
              && v in METHODS && v in PathItem(bd, p) && v !in PathItem(cd, p)
  {
    hide VerbsFound, Paths, PathItem, OfDocument;
    DocumentKinds();
    PlacesDiffer(q, p, v);
    if q in Paths(cd) {
      var was, now := PathItem(bd, q), PathItem(cd, q);
      VerbEntries(bd, cd, was, now, v, PathPlace(q), stack);
    }
  }

  lemma PlacesDiffer(q: string, p: string, v: string)
    ensures PathPlace(q) == [Str("paths"), Str(p)] <==> q == p
    ensures PathPlace(p) + [Str(v)] == [Str("paths"), Str(p), Str(v)]
    ensures forall w :: PathPlace(q) + [Str(w)] == [Str("paths"), Str(p), Str(v)] ==> q == p && w == v
  {
    assert PathPlace(q)[1] == Str(q) && [Str("paths"), Str(p)][1] == Str(p);
    forall w | PathPlace(q) + [Str(w)] == [Str("paths"), Str(p), Str(v)] ensures q == p && w == v {
      assert (PathPlace(q) + [Str(w)])[1] == Str(q) && (PathPlace(q) + [Str(w)])[2] == Str(w);
      assert [Str("paths"), Str(p), Str(v)][1] == Str(p) && [Str("paths"), Str(p), Str(v)][2] == Str(v);
    }
  }

  lemma CodeKinds(bd: Json, cd: Json)
    ensures forall x :: x in CodesFound(bd, cd) ==> x.kind == ProblemCodeRemoved
  {
    hide ProblemCodes;
  }

  lemma SchemeKinds(bd: Json, cd: Json)
    ensures forall x :: x in SecurityFound(bd, cd) ==>
                          x.kind == SecuritySchemeRemoved || x.kind == SecuritySchemeChanged
  {
    hide SecuritySchemes, PyEq;
  }

  lemma PathKinds(bd: Json, cd: Json, stack: nat)
    ensures forall x :: x in PathsFound(bd, cd, Paths(bd).Keys, stack) && OfDocument(x.kind) ==>
                          x.kind == PathRemoved || x.kind == OperationRemoved
  {
    hide VerbsFound, PathItem, Paths, OfDocument;
    forall q | q in Paths(bd) && q in Paths(cd)
      ensures forall x :: x in PathFound(bd, cd, q, stack) && OfDocument(x.kind) ==> x.kind == OperationRemoved
    {
      VerbEntries(bd, cd, PathItem(bd, q), PathItem(cd, q), "", PathPlace(q), stack);
    }
  }

  /** Problem codes and security schemes: an entry exactly for each one that is gone, or a scheme that changed. */
  lemma ComponentEntries(bd: Json, cd: Json, name: string, stack: nat)
    requires MajorVersion(cd) <= MajorVersion(bd)
    ensures var found := DocumentFound(bd, cd, stack);
            var was := Fields(Get(Fields(Get(Fields(bd), "components")), "securitySchemes"));
            var now := Fields(Get(Fields(Get(Fields(cd), "components")), "securitySchemes"));
            var place := [Str("components"), Str("securitySchemes"), Str(name)];
            && (Change(place, SecuritySchemeRemoved) in found <==> name in was && name !in now)
            && (Change(place, SecuritySchemeChanged) in found <==>
                  name in was && name in now && !PyEq(was[name], now[name]))
            && (Change([Str("x-simula-stable-problem-codes"), Str(name)], ProblemCodeRemoved) in found <==>
                  && Str(name) in Elements(Get(Fields(bd), "x-simula-stable-problem-codes"))
                  && Str(name) !in Elements(Get(Fields(cd), "x-simula-stable-problem-codes")))
  {
    hide CodesFound, SecurityFound, PathsFound, Paths, MajorVersion, OfDocument, PyEq;
    DocumentKinds();
    PathKinds(bd, cd, stack);
    CodeKinds(bd, cd);
    SchemeKinds(bd, cd);
    CodeEntries(bd, cd, name);
    SchemeEntries(bd, cd, name);
  }

  lemma SchemeEntries(bd: Json, cd: Json, name: string)
    ensures var was, now := SecuritySchemes(bd), SecuritySchemes(cd);
            var place := [Str("components"), Str("securitySchemes"), Str(name)];
            && (Change(place, SecuritySchemeRemoved) in SecurityFound(bd, cd) <==> name in was && name !in now)
            && (Change(place, SecuritySchemeChanged) in SecurityFound(bd, cd) <==>
                  name in was && name in now && !PyEq(was[name], now[name]))
  {
    hide SecuritySchemes, PyEq;
    var place := [Str("components"), Str("securitySchemes"), Str(name)];
    forall k ensures [Str("components"), Str("securitySchemes"), Str(k)] == place ==> k == name {
      assert [Str("components"), Str("securitySchemes"), Str(k)][2] == Str(k) && place[2] == Str(name);
    }
    var was, now := SecuritySchemes(bd), SecuritySchemes(cd);
    if name in was {
      assert SchemeFound(was, now, name) <= SchemesFound(was, now, was.Keys);
    }
  }

  lemma CodeEntries(bd: Json, cd: Json, name: string)
    ensures Change([Str("x-simula-stable-problem-codes"), Str(name)], ProblemCodeRemoved) in CodesFound(bd, cd) <==>
              && Str(name) in Elements(Get(Fields(bd), "x-simula-stable-problem-codes"))
              && Str(name) !in Elements(Get(Fields(cd), "x-simula-stable-problem-codes"))
  {
    StringsListed(Elements(Get(Fields(bd), "x-simula-stable-problem-codes")));
    StringsListed(Elements(Get(Fields(cd), "x-simula-stable-problem-codes")));
    hide EachFound;
    var at := [Str("x-simula-stable-problem-codes")];
    assert at + [Str(name)] == [Str("x-simula-stable-problem-codes"), Str(name)];
    EachEntered(ProblemCodes(bd) - ProblemCodes(cd), name, at, ProblemCodeRemoved);
    assert name in ProblemCodes(bd) <==> Str(name) in Elements(Get(Fields(bd), "x-simula-stable-problem-codes"));
    assert name in ProblemCodes(cd) <==> Str(name) in Elements(Get(Fields(cd), "x-simula-stable-problem-codes"));
  }

  lemma EachEntered(names: set<string>, name: string, at: Location, kind: Kind)
    ensures Change(at + [Str(name)], kind) in EachFound(names, at, kind) <==> name in names
    ensures forall x :: x in EachFound(names, at, kind) ==> x.kind == kind
  {
    forall k | Under(at, k) == at + [Str(name)] ensures k == name {
      assert Under(at, k)[|at|] == Str(k) && (at + [Str(name)])[|at|] == Str(name);
    }
    assert Under(at, name) == at + [Str(name)];
  }

  // ---- what is found between two resolved schemas ----

  /** Required members, each entered by name. */
  lemma RequiredEntries(b: Object, c: Object, name: string, at: Location, direction: Direction)
    ensures var found := RequiredFound(b, c, at, direction);
            var place := at + [Str("required"), Str(name)];
            var was, now := Elements(Get(b, "required")), Elements(Get(c, "required"));
            && (Change(place, RequiredAdded) in found <==> Str(name) in now && Str(name) !in was)
            && (Change(place, RequiredRemoved) in found <==>
                  direction.Response? && Str(name) in was && Str(name) !in now)
  {
    hide EachFound;
    StringsListed(Elements(Get(b, "required")));
    StringsListed(Elements(Get(c, "required")));
    assert Under(at, "required") + [Str(name)] == at + [Str("required"), Str(name)];
    EachEntered(Required(c) - Required(b), name, Under(at, "required"), RequiredAdded);
    EachEntered(Required(b) - Required(c), name, Under(at, "required"), RequiredRemoved);
  }

  /** Bounds, each entered by its keyword: tightened or new ones on a request, loosened or lost ones on a response. */
  lemma BoundEntries(b: Object, c: Object, k: string, at: Location, direction: Direction)
    ensures var found := BoundsFound(b, c, at, direction);
            var was, now := Get(b, k), Get(c, k);
            var lower := k in {"minLength", "minItems", "minProperties", "minimum", "exclusiveMinimum"};
            var upper := k in {"maxLength", "maxItems", "maxProperties", "maximum", "exclusiveMaximum"};
            && (Change(at + [Str(k)], BoundChanged) in found <==>
                  && (lower || upper) && IsNumber(was) && IsNumber(now)
                  && if lower == direction.Request? then NumberOf(now) > NumberOf(was)
                     else NumberOf(now) < NumberOf(was))
            && (Change(at + [Str(k)], BoundAdded) in found <==>
                  (lower || upper) && direction.Request? && was == Null && IsNumber(now))
            && (Change(at + [Str(k)], BoundRemoved) in found <==>
                  (lower || upper) && direction.Response? && IsNumber(was) && now == Null)
  {
    hide BoundsFoundFor, SameKeyword;
    BoundNames(k);
    BoundsEntered(b, c, k, at, direction, MINIMUMS, true);
    BoundsEntered(b, c, k, at, direction, MAXIMUMS, false);
  }

  lemma BoundNames(k: string)
    ensures k in MINIMUMS <==> k in {"minLength", "minItems", "minProperties", "minimum", "exclusiveMinimum"}
    ensures k in MAXIMUMS <==> k in {"maxLength", "maxItems", "maxProperties", "maximum", "exclusiveMaximum"}
    ensures k in MINIMUMS ==> k !in MAXIMUMS
  {
  }

  lemma BoundsEntered(b: Object, c: Object, k: string, at: Location, direction: Direction, keywords: seq<string>,
                      lower: bool)
    ensures forall kind :: Change(at + [Str(k)], kind) in BoundsFoundFor(b, c, at, direction, keywords, lower) <==>
                             k in keywords && Change(Under(at, k), kind) in BoundFoundAt(b, c, at, direction, k, lower)
  {
    hide BoundFoundAt;
    forall j | j != k
      ensures forall kind :: Change(at + [Str(k)], kind) !in BoundFoundAt(b, c, at, direction, j, lower)
    {
      BoundPlace(b, c, at, direction, j, lower);
      assert Under(at, j)[|at|] == Str(j) && (at + [Str(k)])[|at|] == Str(k);
    }
  }

  lemma BoundPlace(b: Object, c: Object, at: Location, direction: Direction, k: string, lower: bool)
    ensures forall x :: x in BoundFoundAt(b, c, at, direction, k, lower) ==> x.location == Under(at, k)
  {
  }
}
