/** A document that only relaxes what requests ask for and only narrows what responses offer is compared in silence. */
module FalseAlarms {
  import opened Json
  import opened Reference
  import opened SchemaRules
  import opened SchemaOrder
  import opened DocumentRules
  import opened DocumentChanges
  import opened DocumentOrder
  import opened Version
  import opened Exactness
  import opened Soundness

  /** Every media type stays, with a schema that is only relaxed. */
  ghost predicate TolerableContent(bd: Json, cd: Json, was: Json, now: Json, direction: Direction, n: nat) {
    forall k :: k in Fields(was) ==>
      && k in Fields(now)
      && Tolerable(bd, cd, Get(Fields(Fields(was)[k]), "schema"), Get(Fields(Fields(now)[k]), "schema"), direction, n)
  }

  /** Every header stays, with a schema that is only relaxed. */
  ghost predicate TolerableHeaders(bd: Json, cd: Json, was: Object, now: Object, n: nat) {
    forall k :: k in was ==>
      && k in now && Resolve(bd, was[k]).Resolved? && Resolve(cd, now[k]).Resolved?
      && Tolerable(bd, cd, HeaderSchema(bd, was[k]), HeaderSchema(cd, now[k]), Response, n)
  }

  ghost predicate TolerableResponse(bd: Json, cd: Json, was: Json, now: Json, n: nat) {
    && Resolve(bd, was).Resolved? && Resolve(cd, now).Resolved?
    && var b, c := ResolvedFields(bd, was), ResolvedFields(cd, now);
    && TolerableHeaders(bd, cd, Fields(Get(b, "headers")), Fields(Get(c, "headers")), n)
    && TolerableContent(bd, cd, Get(b, "content"), Get(c, "content"), Response, n)
  }

  /** Every parameter stays with a relaxed schema, and none becomes required. */
  ghost predicate TolerableParameters(bd: Json, cd: Json, was: seq<Json>, now: seq<Json>, n: nat) {
    && AllResolve(bd, was) && AllResolve(cd, now)
    && var olds, news := ParameterMap(bd, was), ParameterMap(cd, now);
    && (forall k :: k in olds ==>
          k in news && Tolerable(bd, cd, Get(olds[k], "schema"), Get(news[k], "schema"), Request, n))
    && (forall k :: k in news && Truthy(Get(news[k], "required")) ==>
          k in olds && Truthy(Get(olds[k], "required")))
  }

  /** A new body is optional; one that was there stays, does not become required and accepts what it did. */
  ghost predicate TolerableBody(bd: Json, cd: Json, was: Json, now: Json, n: nat) {
    if was == Null then
      now == Null || (Resolve(cd, now).Resolved? && !Truthy(Get(ResolvedFields(cd, now), "required")))
    else
      && now != Null && Resolve(bd, was).Resolved? && Resolve(cd, now).Resolved?
      && var b, c := ResolvedFields(bd, was), ResolvedFields(cd, now);
      && (Truthy(Get(c, "required")) ==> Truthy(Get(b, "required")))
      && TolerableContent(bd, cd, Get(b, "content"), Get(c, "content"), Request, n)
  }

  ghost predicate TolerableOperation(bd: Json, cd: Json, b: Operation, c: Operation, n: nat) {
    && Get(b.fields, "operationId") == Get(c.fields, "operationId")
    && Get(b.fields, "security") == Get(c.fields, "security")
    && TolerableParameters(bd, cd, b.Parameters(), c.Parameters(), n)
    && TolerableBody(bd, cd, Get(b.fields, "requestBody"), Get(c.fields, "requestBody"), n)
    && var was, now := Fields(Get(b.fields, "responses")), Fields(Get(c.fields, "responses"));
       forall status :: status in was ==> status in now && TolerableResponse(bd, cd, was[status], now[status], n)
  }

  ghost predicate TolerablePath(bd: Json, cd: Json, was: Object, now: Object, n: nat) {
    forall v :: v in was && v in {"get", "put", "post", "delete", "options", "head", "patch", "trace"} ==>
      v in now && TolerableOperation(bd, cd, OperationOf(was, v), OperationOf(now, v), n)
  }

  /** Whatever the baseline document has stays, and is only relaxed. */
  ghost predicate TolerableDocument(bd: Json, cd: Json, n: nat) {
    && (forall x: string :: Str(x) in Elements(Get(Fields(bd), "x-simula-stable-problem-codes")) ==>
          Str(x) in Elements(Get(Fields(cd), "x-simula-stable-problem-codes")))
    && KeepsSchemes(bd, cd)
    && forall p :: p in Paths(bd) ==>
         p in Paths(cd) && TolerablePath(bd, cd, Fields(Paths(bd)[p]), Fields(Paths(cd)[p]), n)
  }

  predicate KeepsSchemes(bd: Json, cd: Json) {
    var was := Fields(Get(Fields(Get(Fields(bd), "components")), "securitySchemes"));
    var now := Fields(Get(Fields(Get(Fields(cd), "components")), "securitySchemes"));
    forall k :: k in was ==> k in now && was[k] == now[k]
  }

  lemma ContentIsSilent(bd: Json, cd: Json, was: Json, now: Json, direction: Direction, n: nat)
    requires TolerableContent(bd, cd, was, now, direction, n)
    ensures SlotsQuiet(bd, cd, MediaSchemas(was), MediaSchemas(now), direction, n)
  {
    hide Tolerable, Compatible, SlotsQuiet, Fields;
    var olds, news := MediaSchemas(was), MediaSchemas(now);
    forall k | k in olds ensures k in news && Compatible(bd, cd, olds[k], news[k], direction, n) {
      RelaxingIsSilent(bd, cd, olds[k], news[k], direction, n);
    }
    SlotsFromEach(bd, cd, olds, news, direction, n);
  }

  lemma HeadersAreSilent(bd: Json, cd: Json, was: Object, now: Object, n: nat)
    requires TolerableHeaders(bd, cd, was, now, n)
    ensures HeadersQuiet(bd, cd, was, now, n)
  {
    hide Tolerable, Compatible, HeadersQuiet, Resolve, HeaderSchema;
    forall k | k in was ensures HeaderQuiet(bd, cd, was, now, k, n) {
      RelaxingIsSilent(bd, cd, HeaderSchema(bd, was[k]), HeaderSchema(cd, now[k]), Response, n);
    }
    HeadersShape(bd, cd, was, now, n);
  }

  lemma ResponseIsSilent(bd: Json, cd: Json, was: Json, now: Json, n: nat)
    requires TolerableResponse(bd, cd, was, now, n)
    ensures ResponseQuiet(bd, cd, was, now, n)
  {
    hide TolerableHeaders, TolerableContent, ResponseQuiet, HeadersQuiet, SlotsQuiet, Resolve, ResolvedFields,
      MediaSchemas;
    var b, c := ResolvedFields(bd, was), ResolvedFields(cd, now);
    HeadersAreSilent(bd, cd, Headers(b), Headers(c), n);
    ContentIsSilent(bd, cd, Get(b, "content"), Get(c, "content"), Response, n);
    ResponseShape(bd, cd, was, now, n);
  }

  lemma ParametersAreSilent(bd: Json, cd: Json, was: seq<Json>, now: seq<Json>, n: nat)
    requires TolerableParameters(bd, cd, was, now, n)
    ensures ParametersQuiet(bd, cd, was, now, n)
  {
    hide Tolerable, Compatible, SlotsFate, SlotsClean, ParameterMap, AllResolve, Truthy;
    var olds, news := ParameterMap(bd, was), ParameterMap(cd, now);
    var oldSchemas, newSchemas := ParameterSchemas(olds), ParameterSchemas(news);
    forall k | k in oldSchemas
      ensures k in newSchemas && Compatible(bd, cd, oldSchemas[k], newSchemas[k], Request, n)
    {
      RelaxingIsSilent(bd, cd, oldSchemas[k], newSchemas[k], Request, n);
    }
    SlotsFromEach(bd, cd, oldSchemas, newSchemas, Request, n);
    assert NoNewRequirement(olds, news);
  }

  lemma BodyIsSilent(bd: Json, cd: Json, was: Json, now: Json, n: nat)
    requires TolerableBody(bd, cd, was, now, n)
    ensures BodyQuiet(bd, cd, was, now, n)
  {
    hide TolerableContent, BodyQuiet, SlotsQuiet, Resolve, ResolvedFields, MediaSchemas, Truthy;
    BodyShape(bd, cd, was, now, n);
    if was != Null {
      var b, c := ResolvedFields(bd, was), ResolvedFields(cd, now);
      ContentIsSilent(bd, cd, Get(b, "content"), Get(c, "content"), Request, n);
    }
  }

  lemma OperationIsSilent(bd: Json, cd: Json, b: Operation, c: Operation, n: nat)
    requires TolerableOperation(bd, cd, b, c, n)
    ensures OperationQuiet(bd, cd, b, c, n)
  {
    hide TolerableParameters, TolerableBody, TolerableResponse, ParametersQuiet, BodyQuiet, ResponseQuiet,
      OperationQuiet, ParameterList;
    KeywordsKept(b.fields, c.fields);
    ParametersAreSilent(bd, cd, b.Parameters(), c.Parameters(), n);
    BodyIsSilent(bd, cd, b.Body(), c.Body(), n);
    forall k | k in b.Responses()
      ensures k in c.Responses() && ResponseQuiet(bd, cd, b.Responses()[k], c.Responses()[k], n)
    {
      ResponseIsSilent(bd, cd, b.Responses()[k], c.Responses()[k], n);
    }
    OperationShape(bd, cd, b, c, n);
  }

  lemma KeywordsKept(b: Object, c: Object)
    requires Get(b, "operationId") == Get(c, "operationId") && Get(b, "security") == Get(c, "security")
    ensures SameKeyword(b, c, "operationId") && SameKeyword(b, c, "security")
  {
    hide PyEq;
    PyEqReflexive(Get(b, "operationId"));
    PyEqReflexive(Get(b, "security"));
  }

  lemma PathIsSilent(bd: Json, cd: Json, p: string, n: nat)
    requires p in Paths(bd) && p in Paths(cd)
    requires TolerablePath(bd, cd, Fields(Paths(bd)[p]), Fields(Paths(cd)[p]), n)
    ensures PathQuiet(bd, cd, p, n)
  {
    hide TolerableOperation, OperationQuiet, Paths, Fields, OperationOf;
    forall v | v in Verbs(PathItem(bd, p)) ensures ItemQuiet(bd, cd, p, v, n) {
      OperationIsSilent(bd, cd, OperationOf(PathItem(bd, p), v), OperationOf(PathItem(cd, p), v), n);
    }
  }

  /** No false alarm in a whole document: the comparison completes and finds nothing. */
  lemma RelaxedDocumentIsSilent(bd: Json, cd: Json, n: nat)
    requires TolerableDocument(bd, cd, n)
    ensures DocumentFate(bd, cd, n) == {} && DocumentFound(bd, cd, n) == {}
  {
    hide DocumentFate, DocumentClean, DocumentFound, TolerablePath, PathQuiet, Paths, ProblemCodes, SecurityClean,
      MajorVersion, Fields, KeepsSchemes;
    CleanDocumentsFindNothing(bd, cd, n);
    if MajorVersion(cd) > MajorVersion(bd) {
      BumpIsQuiet(bd, cd, n);
    } else {
      CodesKept(bd, cd);
      SchemesKept(bd, cd);
      forall p | p in Paths(bd) ensures PathQuiet(bd, cd, p, n) {
        PathIsSilent(bd, cd, p, n);
      }
      DocumentShape(bd, cd, n);
    }
  }

  lemma CodesKept(bd: Json, cd: Json)
    requires forall x: string :: Str(x) in Elements(Get(Fields(bd), "x-simula-stable-problem-codes")) ==>
               Str(x) in Elements(Get(Fields(cd), "x-simula-stable-problem-codes"))
    ensures ProblemCodes(bd) <= ProblemCodes(cd)
  {
    hide Fields;
    StringsListed(Elements(Get(Fields(bd), "x-simula-stable-problem-codes")));
    StringsListed(Elements(Get(Fields(cd), "x-simula-stable-problem-codes")));
  }

  lemma SchemesKept(bd: Json, cd: Json)
    requires KeepsSchemes(bd, cd)
    ensures SecurityClean(bd, cd)
  {
    hide PyEq, Fields;
    forall k | k in SecuritySchemes(bd)
      ensures k in SecuritySchemes(cd) && PyEq(SecuritySchemes(bd)[k], SecuritySchemes(cd)[k])
    {
      PyEqReflexive(SecuritySchemes(bd)[k]);
    }
  }
}
