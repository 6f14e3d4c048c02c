/** "No breaking change" is a preorder on whole documents. */
module DocumentOrder {
  import opened Json
  import opened Reference
  import opened SchemaRules
  import opened SchemaOrder
  import opened DocumentRules
  import opened Version

  // ---- reflexivity ----

  lemma SlotsReflexive<K>(doc: Json, slots: Slots<K>, direction: Direction, stack: nat)
    ensures SlotsClean(doc, doc, slots, slots, direction, stack)
  {
    hide SchemaClean;
    forall k | k in slots ensures SlotClean(doc, doc, slots, slots, k, direction, stack) {
      SchemaReflexive(doc, slots[k], direction, stack);
    }
  }

  lemma ResponseReflexive(doc: Json, response: Json, stack: nat)
    ensures ResponseClean(doc, doc, response, response, stack)
  {
    hide SchemaClean, SlotsClean, Resolve, MediaSchemas;
    var m := ResolvedFields(doc, response);
    forall k | k in Headers(m) ensures HeaderClean(doc, doc, Headers(m), Headers(m), k, stack) {
      SchemaReflexive(doc, HeaderSchema(doc, Headers(m)[k]), Response, stack);
    }
    SlotsReflexive(doc, MediaSchemas(Get(m, "content")), Response, stack);
  }

  lemma OperationReflexive(doc: Json, op: Operation, stack: nat)
    ensures OperationClean(doc, doc, op, op, stack)
  {
    hide SlotsClean, ResponseClean, SameKeyword, ParameterMap, BodyMedia, Resolve, IsRequired;
    KeywordsReflexive(op.fields);
    SlotsReflexive(doc, ParameterSchemas(ParameterMap(doc, op.Parameters())), Request, stack);
    SlotsReflexive(doc, BodyMedia(doc, op.Body()), Request, stack);
    forall k | k in op.Responses() ensures StatusClean(doc, doc, op.Responses(), op.Responses(), k, stack) {
      ResponseReflexive(doc, op.Responses()[k], stack);
    }
  }

  /** A document has no breaking change against itself. */
  lemma DocumentReflexive(doc: Json, stack: nat)
    ensures DocumentClean(doc, doc, stack)
  {
    hide OperationClean, SlotsClean, PyEq, Verbs, Paths, ProblemCodes, SecuritySchemes, MajorVersion;
    forall p | p in Paths(doc) ensures ItemClean(doc, doc, p, stack) {
      var item := PathItem(doc, p);
      forall v | v in Verbs(item) ensures VerbClean(doc, doc, item, item, v, stack) {
        OperationReflexive(doc, OperationOf(item, v), stack);
      }
    }
    forall k | k in SecuritySchemes(doc) ensures PyEq(SecuritySchemes(doc)[k], SecuritySchemes(doc)[k]) {
      PyEqReflexive(SecuritySchemes(doc)[k]);
    }
  }

  // ---- transitivity ----

  ghost predicate SlotsAlong<K>(doc: Json, slots: Slots<K>, n: nat, rule: Rule) {
    forall k :: k in slots ==> Along(doc, slots[k], n, rule)
  }

  ghost predicate HeadersAlong(doc: Json, headers: Object, n: nat, rule: Rule) {
    forall k :: k in headers ==> Along(doc, HeaderSchema(doc, headers[k]), n, rule)
  }

  ghost predicate ResponseAlong(doc: Json, response: Json, n: nat, rule: Rule) {
    && HeadersAlong(doc, Headers(ResolvedFields(doc, response)), n, rule)
    && SlotsAlong(doc, ContentOf(doc, response), n, rule)
  }

  ghost predicate OperationAlong(doc: Json, op: Operation, n: nat, rule: Rule) {
    && SlotsAlong(doc, ParameterSchemas(ParameterMap(doc, op.Parameters())), n, rule)
    && SlotsAlong(doc, BodyMedia(doc, op.Body()), n, rule)
    && (forall k :: k in op.Responses() ==> ResponseAlong(doc, op.Responses()[k], n, rule))
  }

  /** The rule holds at every schema the comparison of the document can reach. */
  ghost predicate DocumentAlong(doc: Json, n: nat, rule: Rule) {
    forall p, v :: p in Paths(doc) && v in Verbs(PathItem(doc, p)) ==>
                     OperationAlong(doc, OperationOf(PathItem(doc, p), v), n, rule)
  }

  ghost predicate SlotsQuiet<K>(bd: Json, cd: Json, b: Slots<K>, c: Slots<K>, direction: Direction, stack: nat) {
    SlotsFate(bd, cd, b, c, stack) == {} && SlotsClean(bd, cd, b, c, direction, stack)
  }

  lemma SlotQuiet<K>(bd: Json, cd: Json, b: Slots<K>, c: Slots<K>, direction: Direction, stack: nat, key: K)
    requires SlotsQuiet(bd, cd, b, c, direction, stack) && key in b
    ensures key in c && Compatible(bd, cd, b[key], c[key], direction, stack)
  {
    hide SlotFate, SlotClean, SlotsFate, SlotsClean, SchemaFate, SchemaClean;
    SlotsCases(bd, cd, b, c, direction, stack);
    SlotCases(bd, cd, b, c, key, direction, stack);
  }

  lemma SlotsFromEach<K>(bd: Json, cd: Json, b: Slots<K>, c: Slots<K>, direction: Direction, stack: nat)
    requires forall k :: k in b ==> k in c && Compatible(bd, cd, b[k], c[k], direction, stack)
    ensures SlotsQuiet(bd, cd, b, c, direction, stack)
  {
    hide SlotFate, SlotClean, SlotsFate, SlotsClean, SchemaFate, SchemaClean;
    forall k | k in b
      ensures SlotClean(bd, cd, b, c, k, direction, stack)
      ensures k in c && SlotFate(bd, cd, b, c, k, stack) == {}
    {
      SlotCases(bd, cd, b, c, k, direction, stack);
    }
    SlotsCases(bd, cd, b, c, direction, stack);
  }

  lemma SlotsTransitive<K>(ad: Json, bd: Json, cd: Json, a: Slots<K>, b: Slots<K>, c: Slots<K>,
                           direction: Direction, stack: nat)
    requires SlotsQuiet(ad, bd, a, b, direction, stack) && SlotsQuiet(bd, cd, b, c, direction, stack)
    requires SlotsAlong(ad, a, stack, NoNullConst) && SlotsAlong(bd, b, stack, Comparable)
    ensures SlotsQuiet(ad, cd, a, c, direction, stack)
  {
    hide SlotsQuiet, Compatible, Along;
    forall k | k in a ensures k in c && Compatible(ad, cd, a[k], c[k], direction, stack) {
      SlotQuiet(ad, bd, a, b, direction, stack, k);
      SlotQuiet(bd, cd, b, c, direction, stack, k);
      SchemaTransitive(ad, bd, cd, a[k], b[k], c[k], direction, stack);
    }
    SlotsFromEach(ad, cd, a, c, direction, stack);
  }

  ghost predicate ParametersQuiet(bd: Json, cd: Json, b: seq<Json>, c: seq<Json>, stack: nat) {
    ParametersFate(bd, cd, b, c, stack) == {} && ParametersClean(bd, cd, b, c, stack)
  }

  lemma ParametersTransitive(ad: Json, bd: Json, cd: Json, a: seq<Json>, b: seq<Json>, c: seq<Json>, stack: nat)
    requires ParametersQuiet(ad, bd, a, b, stack) && ParametersQuiet(bd, cd, b, c, stack)
    requires SlotsAlong(ad, ParameterSchemas(ParameterMap(ad, a)), stack, NoNullConst)
    requires SlotsAlong(bd, ParameterSchemas(ParameterMap(bd, b)), stack, Comparable)
    ensures ParametersQuiet(ad, cd, a, c, stack)
  {
    hide SlotsFate, SlotsClean, SlotsAlong, AllResolve, ParameterMap, ParameterSchemas, IsRequired;
    SlotsTransitive(ad, bd, cd, ParameterSchemas(ParameterMap(ad, a)), ParameterSchemas(ParameterMap(bd, b)),
                    ParameterSchemas(ParameterMap(cd, c)), Request, stack);
  }

  ghost predicate BodyQuiet(bd: Json, cd: Json, b: Json, c: Json, stack: nat) {
    BodyFate(bd, cd, b, c, stack) == {} && BodyClean(bd, cd, b, c, stack)
  }

  /** What a quiet comparison of bodies says, whichever are declared. */
  lemma BodyShape(bd: Json, cd: Json, b: Json, c: Json, stack: nat)
    ensures BodyQuiet(bd, cd, b, c, stack) <==>
              && (b != Null ==> c != Null && Resolve(bd, b).Resolved?)
              && (c != Null ==>
                    && Resolve(cd, c).Resolved?
                    && (IsRequired(ResolvedFields(cd, c)) ==> b != Null && IsRequired(ResolvedFields(bd, b))))
              && (b != Null ==> SlotsQuiet(bd, cd, BodyMedia(bd, b), BodyMedia(cd, c), Request, stack))
  {
    hide SlotsFate, SlotsClean, Resolve, IsRequired, BodyMedia;
    if b == Null {
      assert BodyFate(bd, cd, b, c, stack) == {} <==> c == Null || Resolve(cd, c).Resolved?;
    } else if c != Null {
      DeclaredShape(bd, cd, b, c, stack);
    }
  }

  lemma DeclaredShape(bd: Json, cd: Json, b: Json, c: Json, stack: nat)
    requires b != Null && c != Null
    ensures BodyQuiet(bd, cd, b, c, stack) <==>
              && Resolve(bd, b).Resolved? && Resolve(cd, c).Resolved?
              && (IsRequired(ResolvedFields(cd, c)) ==> IsRequired(ResolvedFields(bd, b)))
              && SlotsQuiet(bd, cd, BodyMedia(bd, b), BodyMedia(cd, c), Request, stack)
  {
    hide SlotsFate, SlotsClean, Resolve, IsRequired, BodyMedia, ResolvedFields, DeclaredBodyFate, DeclaredBodyClean,
      BodyFate, BodyClean;
    BothDeclared(bd, cd, b, c, stack);
    DeclaredFate(bd, cd, b, c, stack);
    DeclaredClean(bd, cd, b, c, stack);
  }

  lemma BothDeclared(bd: Json, cd: Json, b: Json, c: Json, stack: nat)
    requires b != Null && c != Null
    ensures BodyFate(bd, cd, b, c, stack) == DeclaredBodyFate(bd, cd, b, c, stack)
    ensures BodyClean(bd, cd, b, c, stack) == DeclaredBodyClean(bd, cd, b, c, stack)
  {
    hide DeclaredBodyFate, DeclaredBodyClean, Resolve;
  }

  lemma DeclaredFate(bd: Json, cd: Json, b: Json, c: Json, stack: nat)
    ensures DeclaredBodyFate(bd, cd, b, c, stack) == {} <==>
              && Resolve(bd, b).Resolved? && Resolve(cd, c).Resolved?
              && SlotsFate(bd, cd, BodyMedia(bd, b), BodyMedia(cd, c), stack) == {}
  {
    hide SlotsFate, Resolve, BodyMedia;
  }

  lemma DeclaredClean(bd: Json, cd: Json, b: Json, c: Json, stack: nat)
    ensures DeclaredBodyClean(bd, cd, b, c, stack) <==>
              && (IsRequired(ResolvedFields(cd, c)) ==> IsRequired(ResolvedFields(bd, b)))
              && SlotsClean(bd, cd, BodyMedia(bd, b), BodyMedia(cd, c), Request, stack)
  {
    hide SlotsClean, BodyMedia, ResolvedFields, IsRequired;
  }

  lemma BodyTransitive(ad: Json, bd: Json, cd: Json, a: Json, b: Json, c: Json, stack: nat)
    requires BodyQuiet(ad, bd, a, b, stack) && BodyQuiet(bd, cd, b, c, stack)
    requires SlotsAlong(ad, BodyMedia(ad, a), stack, NoNullConst)
    requires SlotsAlong(bd, BodyMedia(bd, b), stack, Comparable)
    ensures BodyQuiet(ad, cd, a, c, stack)
  {
    hide BodyQuiet, SlotsQuiet, SlotsAlong, Resolve, IsRequired, BodyMedia;
    BodyShape(ad, bd, a, b, stack);
    BodyShape(bd, cd, b, c, stack);
    BodyShape(ad, cd, a, c, stack);
    if a != Null {
      SlotsTransitive(ad, bd, cd, BodyMedia(ad, a), BodyMedia(bd, b), BodyMedia(cd, c), Request, stack);
    }
  }

  ghost predicate HeadersQuiet(bd: Json, cd: Json, b: Object, c: Object, stack: nat) {
    HeadersFate(bd, cd, b, c, stack) == {} && HeadersClean(bd, cd, b, c, stack)
  }

  ghost predicate HeaderQuiet(bd: Json, cd: Json, b: Object, c: Object, k: string, stack: nat)
    requires k in b
  {
    && k in c && Resolve(bd, b[k]).Resolved? && Resolve(cd, c[k]).Resolved?
    && Compatible(bd, cd, HeaderSchema(bd, b[k]), HeaderSchema(cd, c[k]), Response, stack)
  }

  lemma HeadersShape(bd: Json, cd: Json, b: Object, c: Object, stack: nat)
    ensures HeadersQuiet(bd, cd, b, c, stack) <==> forall k :: k in b ==> HeaderQuiet(bd, cd, b, c, k, stack)
  {
    hide HeaderFate, HeaderClean, HeadersFate, HeadersClean, SchemaFate, SchemaClean, Resolve, HeaderSchema;
    HeadersCases(bd, cd, b, c, stack);
    forall k | k in b
      ensures HeaderQuiet(bd, cd, b, c, k, stack) <==>
                HeaderClean(bd, cd, b, c, k, stack) && (k in c ==> HeaderFate(bd, cd, b, c, k, stack) == {})
    {
      HeaderCases(bd, cd, b, c, k, stack);
    }
  }

  lemma HeadersTransitive(ad: Json, bd: Json, cd: Json, a: Object, b: Object, c: Object, stack: nat)
    requires HeadersQuiet(ad, bd, a, b, stack) && HeadersQuiet(bd, cd, b, c, stack)
    requires HeadersAlong(ad, a, stack, NoNullConst) && HeadersAlong(bd, b, stack, Comparable)
    ensures HeadersQuiet(ad, cd, a, c, stack)
  {
    hide HeadersQuiet, Compatible, Along, Resolve, HeaderSchema;
    HeadersShape(ad, bd, a, b, stack);
    HeadersShape(bd, cd, b, c, stack);
    forall k | k in a ensures HeaderQuiet(ad, cd, a, c, k, stack) {
      assert HeaderQuiet(ad, bd, a, b, k, stack) && HeaderQuiet(bd, cd, b, c, k, stack);
      SchemaTransitive(ad, bd, cd, HeaderSchema(ad, a[k]), HeaderSchema(bd, b[k]), HeaderSchema(cd, c[k]), Response,
                       stack);
    }
    HeadersShape(ad, cd, a, c, stack);
  }

  ghost predicate ResponseQuiet(bd: Json, cd: Json, b: Json, c: Json, stack: nat) {
    ResponseFate(bd, cd, b, c, stack) == {} && ResponseClean(bd, cd, b, c, stack)
  }

  lemma ResponseShape(bd: Json, cd: Json, b: Json, c: Json, stack: nat)
    ensures ResponseQuiet(bd, cd, b, c, stack) <==>
              && Resolve(bd, b).Resolved? && Resolve(cd, c).Resolved?
              && HeadersQuiet(bd, cd, Headers(ResolvedFields(bd, b)), Headers(ResolvedFields(cd, c)), stack)
              && SlotsQuiet(bd, cd, ContentOf(bd, b), ContentOf(cd, c), Response, stack)
  {
    hide HeadersFate, HeadersClean, SlotsFate, SlotsClean, Resolve, Headers, ContentOf, ResponseFate, ResponseClean,
      ResolvedFields;
    ResponseFateShape(bd, cd, b, c, stack);
    ResponseCleanShape(bd, cd, b, c, stack);
  }

  lemma ResponseFateShape(bd: Json, cd: Json, b: Json, c: Json, stack: nat)
    ensures ResponseFate(bd, cd, b, c, stack) == {} <==>
              && Resolve(bd, b).Resolved? && Resolve(cd, c).Resolved?
              && HeadersFate(bd, cd, Headers(ResolvedFields(bd, b)), Headers(ResolvedFields(cd, c)), stack) == {}
              && SlotsFate(bd, cd, ContentOf(bd, b), ContentOf(cd, c), stack) == {}
  {
    hide HeadersFate, SlotsFate, Resolve, Headers, ContentOf, ResolvedFields, ResponseFate;
    if Resolve(bd, b).Resolved? && Resolve(cd, c).Resolved? {
      ResolvedResponseFate(bd, cd, b, c, stack);
    } else {
      DanglingResponse(bd, cd, b, c, stack);
    }
  }

  lemma ResolvedResponseFate(bd: Json, cd: Json, b: Json, c: Json, stack: nat)
    requires Resolve(bd, b).Resolved? && Resolve(cd, c).Resolved?
    ensures ResponseFate(bd, cd, b, c, stack)
         == HeadersFate(bd, cd, Headers(ResolvedFields(bd, b)), Headers(ResolvedFields(cd, c)), stack)
            + SlotsFate(bd, cd, ContentOf(bd, b), ContentOf(cd, c), stack)
  {
    hide HeadersFate, SlotsFate, Resolve, Headers, MediaSchemas, ResolvedFields;
  }

  lemma DanglingResponse(bd: Json, cd: Json, b: Json, c: Json, stack: nat)
    requires Resolve(bd, b).Unresolved? || Resolve(cd, c).Unresolved?
    ensures ResponseFate(bd, cd, b, c, stack) == {UnresolvedReference}
  {
    hide HeadersFate, SlotsFate, Resolve;
  }

  lemma ResponseCleanShape(bd: Json, cd: Json, b: Json, c: Json, stack: nat)
    ensures ResponseClean(bd, cd, b, c, stack) <==>
              && HeadersClean(bd, cd, Headers(ResolvedFields(bd, b)), Headers(ResolvedFields(cd, c)), stack)
              && SlotsClean(bd, cd, ContentOf(bd, b), ContentOf(cd, c), Response, stack)
  {
    hide HeadersClean, SlotsClean, Resolve, Headers, MediaSchemas, ResolvedFields;
  }

  function ContentOf(doc: Json, response: Json): Slots<string> {
    MediaSchemas(Get(ResolvedFields(doc, response), "content"))
  }

  lemma ResponseTransitive(ad: Json, bd: Json, cd: Json, a: Json, b: Json, c: Json, stack: nat)
    requires ResponseQuiet(ad, bd, a, b, stack) && ResponseQuiet(bd, cd, b, c, stack)
    requires ResponseAlong(ad, a, stack, NoNullConst) && ResponseAlong(bd, b, stack, Comparable)
    ensures ResponseQuiet(ad, cd, a, c, stack)
  {
    hide ResponseQuiet, HeadersQuiet, SlotsQuiet, HeadersAlong, SlotsAlong, Resolve, Headers, ContentOf,
      ResolvedFields;
    ResponseShape(ad, bd, a, b, stack);
    ResponseShape(bd, cd, b, c, stack);
    HeadersTransitive(ad, bd, cd, Headers(ResolvedFields(ad, a)), Headers(ResolvedFields(bd, b)),
                      Headers(ResolvedFields(cd, c)), stack);
    SlotsTransitive(ad, bd, cd, ContentOf(ad, a), ContentOf(bd, b), ContentOf(cd, c), Response, stack);
    ResponseShape(ad, cd, a, c, stack);
  }

  ghost predicate OperationQuiet(bd: Json, cd: Json, b: Operation, c: Operation, stack: nat) {
    OperationFate(bd, cd, b, c, stack) == {} && OperationClean(bd, cd, b, c, stack)
  }

  ghost predicate ResponsesQuiet(bd: Json, cd: Json, b: Object, c: Object, stack: nat) {
    forall k :: k in b ==> k in c && ResponseQuiet(bd, cd, b[k], c[k], stack)
  }

  lemma ResponsesShape(bd: Json, cd: Json, b: Object, c: Object, stack: nat)
    ensures ResponsesFate(bd, cd, b, c, stack) == {} && ResponsesClean(bd, cd, b, c, stack)
       <==> ResponsesQuiet(bd, cd, b, c, stack)
  {
    hide StatusFate, StatusClean, ResponsesFate, ResponsesClean, ResponseFate, ResponseClean;
    ResponsesCases(bd, cd, b, c, stack);
    forall k | k in b
      ensures (k in c && ResponseQuiet(bd, cd, b[k], c[k], stack)) <==>
                StatusClean(bd, cd, b, c, k, stack) && (k in c ==> StatusFate(bd, cd, b, c, k, stack) == {})
    {
      StatusCases(bd, cd, b, c, k, stack);
    }
  }

  lemma OperationShape(bd: Json, cd: Json, b: Operation, c: Operation, stack: nat)
    ensures OperationQuiet(bd, cd, b, c, stack) <==>
              && SameKeyword(b.fields, c.fields, "operationId") && SameKeyword(b.fields, c.fields, "security")
              && ParametersQuiet(bd, cd, b.Parameters(), c.Parameters(), stack)
              && BodyQuiet(bd, cd, b.Body(), c.Body(), stack)
              && ResponsesQuiet(bd, cd, b.Responses(), c.Responses(), stack)
  {
    hide ParametersFate, ParametersClean, BodyFate, BodyClean, ResponsesFate, ResponsesClean, SameKeyword,
      ResponsesQuiet;
    ResponsesShape(bd, cd, b.Responses(), c.Responses(), stack);
  }

  lemma OperationTransitive(ad: Json, bd: Json, cd: Json, a: Operation, b: Operation, c: Operation, stack: nat)
    requires OperationQuiet(ad, bd, a, b, stack) && OperationQuiet(bd, cd, b, c, stack)
    requires OperationAlong(ad, a, stack, NoNullConst) && OperationAlong(bd, b, stack, Comparable)
    ensures OperationQuiet(ad, cd, a, c, stack)
  {
    hide OperationQuiet, ParametersQuiet, BodyQuiet, ResponseQuiet, SlotsAlong, ResponseAlong, SameKeyword,
      ParameterMap, BodyMedia;
    OperationShape(ad, bd, a, b, stack);
    OperationShape(bd, cd, b, c, stack);
    KeywordTransitive(a.fields, b.fields, c.fields, "operationId");
    KeywordTransitive(a.fields, b.fields, c.fields, "security");
    ParametersTransitive(ad, bd, cd, a.Parameters(), b.Parameters(), c.Parameters(), stack);
    BodyTransitive(ad, bd, cd, a.Body(), b.Body(), c.Body(), stack);
    forall k | k in a.Responses()
      ensures k in c.Responses() && ResponseQuiet(ad, cd, a.Responses()[k], c.Responses()[k], stack)
    {
      ResponseTransitive(ad, bd, cd, a.Responses()[k], b.Responses()[k], c.Responses()[k], stack);
    }
    OperationShape(ad, cd, a, c, stack);
  }

  /** Completes and reports nothing. */
  ghost predicate DocumentQuiet(bd: Json, cd: Json, stack: nat) {
    DocumentFate(bd, cd, stack) == {} && DocumentClean(bd, cd, stack)
  }

  ghost predicate ItemQuiet(bd: Json, cd: Json, p: string, v: string, stack: nat)
    requires p in Paths(bd) && v in Verbs(PathItem(bd, p))
  {
    && p in Paths(cd) && v in PathItem(cd, p)
    && OperationQuiet(bd, cd, OperationOf(PathItem(bd, p), v), OperationOf(PathItem(cd, p), v), stack)
  }

  ghost predicate PathQuiet(bd: Json, cd: Json, p: string, stack: nat)
    requires p in Paths(bd)
  {
    p in Paths(cd) && forall v :: v in Verbs(PathItem(bd, p)) ==> ItemQuiet(bd, cd, p, v, stack)
  }

  lemma PathShape(bd: Json, cd: Json, p: string, stack: nat)
    requires p in Paths(bd)
    ensures PathQuiet(bd, cd, p, stack) <==>
              ItemClean(bd, cd, p, stack) && (p in Paths(cd) ==> ItemFate(bd, cd, p, stack) == {})
  {
    hide OperationFate, OperationClean, VerbFate, VerbClean, PathFate, PathClean, ItemFate, ItemClean, Paths, Verbs;
    ItemCases(bd, cd, p, stack);
    if p in Paths(cd) {
      var was, now := PathItem(bd, p), PathItem(cd, p);
      PathCases(bd, cd, was, now, stack);
      forall v | v in Verbs(was)
        ensures ItemQuiet(bd, cd, p, v, stack) <==>
                  VerbClean(bd, cd, was, now, v, stack)
                  && (v in now ==> VerbFate(bd, cd, was, now, v, stack) == {})
      {
        VerbCases(bd, cd, was, now, v, stack);
      }
    }
  }

  lemma DocumentShape(bd: Json, cd: Json, stack: nat)
    requires MajorVersion(cd) <= MajorVersion(bd)
    ensures DocumentQuiet(bd, cd, stack) <==>
              && ProblemCodes(bd) <= ProblemCodes(cd) && SecurityClean(bd, cd)
              && forall p :: p in Paths(bd) ==> PathQuiet(bd, cd, p, stack)
  {
    hide ItemFate, ItemClean, PathsFate, PathsClean, PathQuiet, Paths, ProblemCodes, SecurityClean;
    PathsCases(bd, cd, stack);
    forall p | p in Paths(bd)
      ensures PathQuiet(bd, cd, p, stack) <==>
                ItemClean(bd, cd, p, stack) && (p in Paths(cd) ==> ItemFate(bd, cd, p, stack) == {})
    {
      PathShape(bd, cd, p, stack);
    }
  }

  lemma PathTransitive(ad: Json, bd: Json, cd: Json, p: string, stack: nat)
    requires p in Paths(ad) && PathQuiet(ad, bd, p, stack)
    requires p in Paths(bd) && PathQuiet(bd, cd, p, stack)
    requires DocumentAlong(ad, stack, NoNullConst) && DocumentAlong(bd, stack, Comparable)
    ensures PathQuiet(ad, cd, p, stack)
  {
    hide OperationQuiet, OperationAlong, Paths;
    forall v | v in Verbs(PathItem(ad, p)) ensures ItemQuiet(ad, cd, p, v, stack) {
      assert ItemQuiet(ad, bd, p, v, stack);
      assert v in Verbs(PathItem(bd, p));
      assert ItemQuiet(bd, cd, p, v, stack);
      OperationTransitive(ad, bd, cd, OperationOf(PathItem(ad, p), v), OperationOf(PathItem(bd, p), v),
                          OperationOf(PathItem(cd, p), v), stack);
    }
  }

  lemma SecurityTransitive(ad: Json, bd: Json, cd: Json)
    requires SecurityClean(ad, bd) && SecurityClean(bd, cd)
    ensures SecurityClean(ad, cd)
  {
    hide PyEq, SecuritySchemes;
    forall k | k in SecuritySchemes(ad)
      ensures k in SecuritySchemes(cd) && PyEq(SecuritySchemes(ad)[k], SecuritySchemes(cd)[k])
    {
      PyEqTransitive(SecuritySchemes(ad)[k], SecuritySchemes(bd)[k], SecuritySchemes(cd)[k]);
    }
  }

  /** If the steps from A to B and from B to C complete and report nothing, so does the step from A to C. */
  lemma DocumentTransitive(ad: Json, bd: Json, cd: Json, stack: nat)
    requires DocumentQuiet(ad, bd, stack) && DocumentQuiet(bd, cd, stack)
    requires MajorVersion(ad) <= MajorVersion(bd) <= MajorVersion(cd)
    requires DocumentAlong(ad, stack, NoNullConst) && DocumentAlong(bd, stack, Comparable)
    ensures DocumentQuiet(ad, cd, stack)
  {
    hide DocumentQuiet, PathQuiet, Paths, ProblemCodes, SecurityClean, DocumentAlong, MajorVersion;
    if MajorVersion(cd) > MajorVersion(ad) {
      BumpIsQuiet(ad, cd, stack);
    } else {
      DocumentShape(ad, bd, stack);
      DocumentShape(bd, cd, stack);
      SecurityTransitive(ad, bd, cd);
      forall p | p in Paths(ad) ensures PathQuiet(ad, cd, p, stack) {
        PathReaches(ad, bd, p, stack);
        PathTransitive(ad, bd, cd, p, stack);
      }
      DocumentShape(ad, cd, stack);
    }
  }

  lemma PathReaches(bd: Json, cd: Json, p: string, stack: nat)
    requires p in Paths(bd) && PathQuiet(bd, cd, p, stack)
    ensures p in Paths(cd)
  {
  }

  lemma BumpIsQuiet(bd: Json, cd: Json, stack: nat)
    requires MajorVersion(cd) > MajorVersion(bd)
    ensures DocumentQuiet(bd, cd, stack)
  {
  }
}
