/** Which documents the comparison gets through: only the schemas the baseline holds decide how deep it goes. */
module Unfolding {
  import opened Json
  import opened Reference
  import opened SchemaRules
  import opened Termination
  import opened DocumentRules
  import opened DocumentOrder

  // ---- the schemas that a document has compared ----

  ghost predicate SlotsUnfold<K>(doc: Json, slots: Slots<K>, n: nat) {
    forall k :: k in slots ==> Unfolds(doc, slots[k], n)
  }

  ghost predicate HeadersUnfold(doc: Json, headers: Object, n: nat) {
    forall k :: k in headers && Resolve(doc, headers[k]).Resolved? ==> Unfolds(doc, HeaderSchema(doc, headers[k]), n)
  }

  ghost predicate ResponseUnfolds(doc: Json, response: Json, n: nat) {
    Resolve(doc, response).Resolved? ==>
      && HeadersUnfold(doc, Headers(ResolvedFields(doc, response)), n)
      && SlotsUnfold(doc, ContentOf(doc, response), n)
  }

  ghost predicate BodyUnfolds(doc: Json, body: Json, n: nat) {
    body != Null && Resolve(doc, body).Resolved? ==> SlotsUnfold(doc, BodyMedia(doc, body), n)
  }

  ghost predicate OperationUnfolds(doc: Json, op: Operation, n: nat) {
    && SlotsUnfold(doc, ParameterSchemas(ParameterMap(doc, op.Parameters())), n)
    && BodyUnfolds(doc, op.Body(), n)
    && (forall k :: k in op.Responses() ==> ResponseUnfolds(doc, op.Responses()[k], n))
  }

  /** Every schema that comparing the document reaches unfolds within `n` frames. */
  ghost predicate DocumentUnfolds(doc: Json, n: nat) {
    forall p, v :: p in Paths(doc) && v in Verbs(PathItem(doc, p)) ==>
                     OperationUnfolds(doc, OperationOf(PathItem(doc, p), v), n)
  }

  // ---- against any candidate it suffices that the baseline unfolds ----

  lemma SlotsEnd<K>(bd: Json, cd: Json, b: Slots<K>, c: Slots<K>, n: nat, stack: nat)
    requires SlotsUnfold(bd, b, n) && n <= stack
    ensures StackOverflow !in SlotsFate(bd, cd, b, c, stack)
  {
    hide SchemaFate, Unfolds;
    forall k | k in b && k in c ensures StackOverflow !in SlotFate(bd, cd, b, c, k, stack) {
      FiniteBaselineTerminates(bd, cd, b[k], c[k], n, stack);
    }
  }

  lemma HeadersEnd(bd: Json, cd: Json, b: Object, c: Object, n: nat, stack: nat)
    requires HeadersUnfold(bd, b, n) && n <= stack
    ensures StackOverflow !in HeadersFate(bd, cd, b, c, stack)
  {
    hide SchemaFate, Unfolds, HeaderSchema, Resolve;
    forall k | k in b && k in c ensures StackOverflow !in HeaderFate(bd, cd, b, c, k, stack) {
      if Resolve(bd, b[k]).Resolved? {
        FiniteBaselineTerminates(bd, cd, HeaderSchema(bd, b[k]), HeaderSchema(cd, c[k]), n, stack);
      }
    }
  }

  lemma ResponseEnds(bd: Json, cd: Json, b: Json, c: Json, n: nat, stack: nat)
    requires ResponseUnfolds(bd, b, n) && n <= stack
    ensures StackOverflow !in ResponseFate(bd, cd, b, c, stack)
  {
    hide ResponseFate, HeadersFate, SlotsFate, HeadersUnfold, SlotsUnfold, Resolve, Headers, ContentOf, ResolvedFields;
    if Resolve(bd, b).Resolved? && Resolve(cd, c).Resolved? {
      ResolvedResponseFate(bd, cd, b, c, stack);
      HeadersEnd(bd, cd, Headers(ResolvedFields(bd, b)), Headers(ResolvedFields(cd, c)), n, stack);
      SlotsEnd(bd, cd, ContentOf(bd, b), ContentOf(cd, c), n, stack);
    } else {
      DanglingResponse(bd, cd, b, c, stack);
    }
  }

  lemma BodyEnds(bd: Json, cd: Json, b: Json, c: Json, n: nat, stack: nat)
    requires BodyUnfolds(bd, b, n) && n <= stack
    ensures StackOverflow !in BodyFate(bd, cd, b, c, stack)
  {
    hide SlotsFate, SlotsUnfold, Resolve, BodyMedia;
    if b != Null && Resolve(bd, b).Resolved? {
      SlotsEnd(bd, cd, BodyMedia(bd, b), BodyMedia(cd, c), n, stack);
    }
  }

  lemma OperationEnds(bd: Json, cd: Json, b: Operation, c: Operation, n: nat, stack: nat)
    requires OperationUnfolds(bd, b, n) && n <= stack
    ensures StackOverflow !in OperationFate(bd, cd, b, c, stack)
  {
    hide SlotsFate, SlotsUnfold, BodyFate, BodyUnfolds, ResponseFate, ResponseUnfolds, ParameterMap, AllResolve;
    SlotsEnd(bd, cd, ParameterSchemas(ParameterMap(bd, b.Parameters())),
             ParameterSchemas(ParameterMap(cd, c.Parameters())), n, stack);
    BodyEnds(bd, cd, b.Body(), c.Body(), n, stack);
    forall k | k in b.Responses() && k in c.Responses()
      ensures StackOverflow !in StatusFate(bd, cd, b.Responses(), c.Responses(), k, stack)
    {
      ResponseEnds(bd, cd, b.Responses()[k], c.Responses()[k], n, stack);
    }
  }

  /** Against any candidate, cyclic and dangling ones included, the walk ends without exhausting the stack. */
  lemma DocumentWalkEnds(bd: Json, cd: Json, n: nat, stack: nat)
    requires DocumentUnfolds(bd, n) && n <= stack
    ensures StackOverflow !in DocumentFate(bd, cd, stack)
  {
    hide OperationFate, OperationUnfolds, Paths, MajorBump, Verbs;
    forall p, v | p in Paths(bd) && p in Paths(cd) && v in Verbs(PathItem(bd, p)) && v in PathItem(cd, p)
      ensures StackOverflow !in VerbFate(bd, cd, PathItem(bd, p), PathItem(cd, p), v, stack)
    {
      OperationEnds(bd, cd, OperationOf(PathItem(bd, p), v), OperationOf(PathItem(cd, p), v), n, stack);
    }
  }

  // ---- and against itself it is necessary ----

  lemma SlotsOverflow<K>(doc: Json, slots: Slots<K>, stack: nat)
    requires !SlotsUnfold(doc, slots, stack)
    ensures StackOverflow in SlotsFate(doc, doc, slots, slots, stack)
  {
    hide SchemaFate, Unfolds;
    var k :| k in slots && !Unfolds(doc, slots[k], stack);
    SelfComparisonOverflows(doc, slots[k], stack);
    SlotRaises(doc, doc, slots, slots, k, stack);
  }

  lemma HeadersOverflow(doc: Json, headers: Object, stack: nat)
    requires !HeadersUnfold(doc, headers, stack)
    ensures StackOverflow in HeadersFate(doc, doc, headers, headers, stack)
  {
    hide SchemaFate, Unfolds, HeaderSchema, Resolve, HeadersFate, HeaderFate;
    var k :| k in headers && Resolve(doc, headers[k]).Resolved?
             && !Unfolds(doc, HeaderSchema(doc, headers[k]), stack);
    SelfComparisonOverflows(doc, HeaderSchema(doc, headers[k]), stack);
    HeaderCases(doc, doc, headers, headers, k, stack);
  }

  lemma ResponseOverflows(doc: Json, response: Json, stack: nat)
    requires !ResponseUnfolds(doc, response, stack)
    ensures StackOverflow in ResponseFate(doc, doc, response, response, stack)
  {
    hide ResponseFate, HeadersFate, SlotsFate, HeadersUnfold, SlotsUnfold, Resolve, Headers, ContentOf, ResolvedFields;
    ResolvedResponseFate(doc, doc, response, response, stack);
    if !SlotsUnfold(doc, ContentOf(doc, response), stack) {
      SlotsOverflow(doc, ContentOf(doc, response), stack);
    } else {
      HeadersOverflow(doc, Headers(ResolvedFields(doc, response)), stack);
    }
  }

  lemma BodyOverflows(doc: Json, body: Json, stack: nat)
    requires !BodyUnfolds(doc, body, stack)
    ensures StackOverflow in BodyFate(doc, doc, body, body, stack)
  {
    hide SlotsFate, SlotsUnfold, Resolve, BodyMedia;
    SlotsOverflow(doc, BodyMedia(doc, body), stack);
  }

  lemma OperationOverflows(doc: Json, op: Operation, stack: nat)
    requires !OperationUnfolds(doc, op, stack)
    ensures StackOverflow in OperationFate(doc, doc, op, op, stack)
  {
    hide SlotsFate, SlotsUnfold, BodyFate, BodyUnfolds, ResponseFate, ResponseUnfolds, ResponsesFate, ParameterMap,
      AllResolve;
    var parameters := ParameterSchemas(ParameterMap(doc, op.Parameters()));
    if !SlotsUnfold(doc, parameters, stack) {
      SlotsOverflow(doc, parameters, stack);
    } else if !BodyUnfolds(doc, op.Body(), stack) {
      BodyOverflows(doc, op.Body(), stack);
    } else {
      var k :| k in op.Responses() && !ResponseUnfolds(doc, op.Responses()[k], stack);
      ResponseOverflows(doc, op.Responses()[k], stack);
      StatusCases(doc, doc, op.Responses(), op.Responses(), k, stack);
    }
  }

  lemma DocumentOverflows(doc: Json, stack: nat)
    requires !DocumentUnfolds(doc, stack)
    ensures StackOverflow in DocumentFate(doc, doc, stack)
  {
    hide OperationFate, OperationUnfolds, Paths, Verbs, VerbFate, PathFate, ItemFate, PathsFate;
    var p, v :| p in Paths(doc) && v in Verbs(PathItem(doc, p))
                && !OperationUnfolds(doc, OperationOf(PathItem(doc, p), v), stack);
    OperationOverflows(doc, OperationOf(PathItem(doc, p), v), stack);
    VerbCases(doc, doc, PathItem(doc, p), PathItem(doc, p), v, stack);
    ItemCases(doc, doc, p, stack);
  }
}
