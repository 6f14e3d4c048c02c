/** When the comparison of two documents completes, and that a document compared with itself then reports nothing. */
module Completion {
  import opened Json
  import opened Reference
  import opened Heredity
  import opened SchemaRules
  import opened SchemaOrder
  import opened Soundness
  import opened Termination
  import opened DocumentRules
  import opened DocumentOrder
  import opened DocumentParts
  import opened Unfolding
  import Text

  // ---- where every reference leads somewhere, none dangles ----

  /** Values with `P` in the baseline and with `Q` in the candidate do not lead to a dangling reference. */
  ghost predicate Avoided(bd: Json, cd: Json, P: Json -> bool, Q: Json -> bool, stack: nat) {
    && Hereditary(P) && Hereditary(Q) && P(bd) && Q(cd)
    && (forall b, c :: P(b) && Q(c) ==> UnresolvedReference !in SchemaFate(bd, cd, b, c, stack))
    && (forall j :: P(j) ==> Resolve(bd, j).Resolved?)
    && (forall j :: Q(j) ==> Resolve(cd, j).Resolved?)
  }

  lemma SlotsAvoid<K>(bd: Json, cd: Json, P: Json -> bool, Q: Json -> bool, b: Slots<K>, c: Slots<K>,
                      stack: nat)
    requires Avoided(bd, cd, P, Q, stack)
    requires (forall k :: k in b ==> P(b[k])) && (forall k :: k in c ==> Q(c[k]))
    ensures UnresolvedReference !in SlotsFate(bd, cd, b, c, stack)
  {
    hide SchemaFate, Resolve, Hereditary;
  }

  lemma ResolvedBy(bd: Json, cd: Json, P: Json -> bool, Q: Json -> bool, stack: nat)
    requires Avoided(bd, cd, P, Q, stack)
    ensures Hereditary(P) && Hereditary(Q) && P(bd) && Q(cd)
    ensures forall j :: P(j) ==> Resolve(bd, j).Resolved?
    ensures forall j :: Q(j) ==> Resolve(cd, j).Resolved?
  {
    hide SchemaFate, Resolve, Hereditary;
  }

  lemma HeaderAvoids(bd: Json, cd: Json, P: Json -> bool, Q: Json -> bool, b: Object, c: Object, k: string,
                     stack: nat)
    requires Avoided(bd, cd, P, Q, stack) && k in b && k in c
    requires P(b[k]) && P(HeaderSchema(bd, b[k])) && Q(c[k]) && Q(HeaderSchema(cd, c[k]))
    ensures UnresolvedReference !in HeaderFate(bd, cd, b, c, k, stack)
  {
    hide SchemaFate, Resolve, Hereditary, HeaderSchema;
  }

  lemma HeadersAvoid(bd: Json, cd: Json, P: Json -> bool, Q: Json -> bool, b: Object, c: Object, stack: nat)
    requires Avoided(bd, cd, P, Q, stack)
    requires forall k :: k in b ==> P(b[k]) && P(HeaderSchema(bd, b[k]))
    requires forall k :: k in c ==> Q(c[k]) && Q(HeaderSchema(cd, c[k]))
    ensures UnresolvedReference !in HeadersFate(bd, cd, b, c, stack)
  {
    hide Avoided, HeaderSchema, HeaderFate;
    forall k | k in b && k in c ensures UnresolvedReference !in HeaderFate(bd, cd, b, c, k, stack) {
      HeaderAvoids(bd, cd, P, Q, b, c, k, stack);
    }
  }

  lemma ResponseAvoids(bd: Json, cd: Json, P: Json -> bool, Q: Json -> bool, b: Json, c: Json, stack: nat)
    requires Avoided(bd, cd, P, Q, stack) && P(b) && Q(c)
    ensures UnresolvedReference !in ResponseFate(bd, cd, b, c, stack)
  {
    hide Avoided, Hereditary, ResponseFate, HeadersFate, SlotsFate, Resolve, Headers, ContentOf, HeaderSchema,
      ResolvedFields;
    ResolvedBy(bd, cd, P, Q, stack);
    ResolvedResponseFate(bd, cd, b, c, stack);
    HeadersInherit(P, bd, b);
    HeadersInherit(Q, cd, c);
    HeadersAvoid(bd, cd, P, Q, Headers(ResolvedFields(bd, b)), Headers(ResolvedFields(cd, c)), stack);
    ContentInherits(P, bd, b);
    ContentInherits(Q, cd, c);
    SlotsAvoid(bd, cd, P, Q, ContentOf(bd, b), ContentOf(cd, c), stack);
  }

  lemma ParametersAvoid(bd: Json, cd: Json, P: Json -> bool, Q: Json -> bool, b: seq<Json>, c: seq<Json>,
                        stack: nat)
    requires Avoided(bd, cd, P, Q, stack)
    requires (forall i :: 0 <= i < |b| ==> P(b[i])) && (forall i :: 0 <= i < |c| ==> Q(c[i]))
    ensures UnresolvedReference !in ParametersFate(bd, cd, b, c, stack)
  {
    hide Avoided, Hereditary, SlotsFate, Resolve, ParameterMap;
    ResolvedBy(bd, cd, P, Q, stack);
    ParametersInherit(P, bd, b);
    ParametersInherit(Q, cd, c);
    SlotsAvoid(bd, cd, P, Q, ParameterSchemas(ParameterMap(bd, b)), ParameterSchemas(ParameterMap(cd, c)), stack);
  }

  lemma BodyAvoids(bd: Json, cd: Json, P: Json -> bool, Q: Json -> bool, b: Json, c: Json, stack: nat)
    requires Avoided(bd, cd, P, Q, stack) && P(b) && Q(c)
    ensures UnresolvedReference !in BodyFate(bd, cd, b, c, stack)
  {
    hide Avoided, Hereditary, SlotsFate, Resolve, MediaSchemas;
    ResolvedBy(bd, cd, P, Q, stack);
    ContentInherits(P, bd, b);
    ContentInherits(Q, cd, c);
    assert BodyMedia(bd, b) == ContentOf(bd, b) && BodyMedia(cd, c) == ContentOf(cd, c);
    SlotsAvoid(bd, cd, P, Q, BodyMedia(bd, b), BodyMedia(cd, c), stack);
  }

  lemma OperationAvoids(bd: Json, cd: Json, P: Json -> bool, Q: Json -> bool, b: Operation, c: Operation,
                        stack: nat)
    requires Avoided(bd, cd, P, Q, stack) && OperationHas(P, b) && OperationHas(Q, c)
    ensures UnresolvedReference !in OperationFate(bd, cd, b, c, stack)
  {
    hide Avoided, Hereditary, OperationHas, ParametersFate, BodyFate, ResponseFate;
    ResolvedBy(bd, cd, P, Q, stack);
    PartsInherit(P, b);
    PartsInherit(Q, c);
    ParametersAvoid(bd, cd, P, Q, b.Parameters(), c.Parameters(), stack);
    BodyAvoids(bd, cd, P, Q, b.Body(), c.Body(), stack);
    forall k | k in b.Responses() && k in c.Responses()
      ensures UnresolvedReference !in StatusFate(bd, cd, b.Responses(), c.Responses(), k, stack)
    {
      ResponseAvoids(bd, cd, P, Q, b.Responses()[k], c.Responses()[k], stack);
    }
  }

  lemma DocumentAvoids(bd: Json, cd: Json, P: Json -> bool, Q: Json -> bool, stack: nat)
    requires Avoided(bd, cd, P, Q, stack)
    ensures UnresolvedReference !in DocumentFate(bd, cd, stack)
  {
    hide Avoided, Hereditary, OperationHas, OperationFate, Paths, MajorBump, Verbs;
    ResolvedBy(bd, cd, P, Q, stack);
    forall p, v | p in Paths(bd) && p in Paths(cd) && v in Verbs(PathItem(bd, p)) && v in PathItem(cd, p)
      ensures UnresolvedReference !in VerbFate(bd, cd, PathItem(bd, p), PathItem(cd, p), v, stack)
    {
      OperationsInherit(P, bd, p, v);
      OperationsInherit(Q, cd, p, v);
      OperationAvoids(bd, cd, P, Q, OperationOf(PathItem(bd, p), v), OperationOf(PathItem(cd, p), v), stack);
    }
  }

  // ---- references that lead somewhere ----

  /** Every local reference in the document leads to a value of it. */
  predicate Resolvable(doc: Json) {
    forall r :: r in Refs(doc) && Local(r) ==> Target(doc, r).Resolved?
  }

  lemma {:induction false} ChainResolves(doc: Json, current: Json, visited: set<string>)
    requires Resolvable(doc) && Refs(current) <= Refs(doc)
    ensures ResolveFrom(doc, current, visited).Resolved?
    ensures Refs(ResolveFrom(doc, current, visited).value) <= Refs(doc)
    decreases Refs(doc) - visited
  {
    hide Refs;
    var ref := RefOf(current);
    RefAmongRefs(current);
    if ref.Some? && Local(ref.value) && ref.value !in visited {
      WalkRefs(doc, Text.Split(ref.value[2..], '/'));
      ChainResolves(doc, Target(doc, ref.value).value, visited + {ref.value});
    }
  }

  lemma ChildRefs(m: Object)
    ensures forall k :: k in Properties(m) ==> Refs(Properties(m)[k]) <= Refs(Obj(m))
    ensures Refs(Get(m, "items")) <= Refs(Obj(m))
  {
    GetRefs(m, "properties");
    FieldRefs(Get(m, "properties"));
    GetRefs(m, "items");
  }

  lemma FieldsRefs(j: Json)
    ensures Refs(Obj(Fields(j))) <= Refs(j)
  {
  }

  lemma ResolvesFor(doc: Json, s: Json)
    requires Resolvable(doc) && Refs(s) <= Refs(doc)
    ensures Resolve(doc, s).Resolved? && Refs(Obj(ResolvedFields(doc, s))) <= Refs(doc)
  {
    hide Refs, Resolvable, ResolveFrom;
    ChainResolves(doc, s, {});
    FieldsRefs(Resolve(doc, s).value);
  }

  /** In documents without dangling references no schema comparison meets one. */
  lemma {:induction false} NothingDangles(bd: Json, cd: Json, b: Json, c: Json, stack: nat)
    requires Resolvable(bd) && Refs(b) <= Refs(bd) && Resolvable(cd) && Refs(c) <= Refs(cd)
    ensures UnresolvedReference !in SchemaFate(bd, cd, b, c, stack)
    decreases stack, 0
  {
    hide Resolvable, Refs, SchemaFate, ResolvedFate, Resolve;
    ResolvesFor(bd, b);
    ResolvesFor(cd, c);
    if stack == 0 {
      NoStack(bd, cd, b, c);
    } else if b == Null || c == Null {
      LeafFate(bd, cd, b, c, stack);
    } else {
      Descent(bd, cd, b, c, Request, stack);
      NothingDanglesBelow(bd, cd, ResolvedFields(bd, b), ResolvedFields(cd, c), stack - 1);
    }
  }

  lemma {:induction false} NothingDanglesBelow(bd: Json, cd: Json, was: Object, now: Object, stack: nat)
    requires Resolvable(bd) && Refs(Obj(was)) <= Refs(bd) && Resolvable(cd) && Refs(Obj(now)) <= Refs(cd)
    ensures UnresolvedReference !in ResolvedFate(bd, cd, was, now, stack)
    decreases stack, 1
  {
    hide Resolvable, Refs, SchemaFate;
    ChildRefs(was);
    ChildRefs(now);
    forall k | k in SharedNames(was, now) ensures UnresolvedReference !in PropertyFate(bd, cd, was, now, k, stack) {
      NothingDangles(bd, cd, Properties(was)[k], Properties(now)[k], stack);
    }
    if "items" in was {
      NothingDangles(bd, cd, was["items"], Get(now, "items"), stack);
    }
  }

  // ---- whole documents ----

  /** The references of the document are ranked, and ranks fall along them. */
  ghost predicate Acyclic(doc: Json, rank: map<string, nat>, below: nat) {
    Ranked(doc, rank, doc, below)
  }

  /** Nothing in a document is higher than it or refers to what it does not refer to. */
  ghost predicate Nested(doc: Json, j: Json) {
    Refs(j) <= Refs(doc) && Height(j) <= Height(doc)
  }

  lemma NestedInherits(doc: Json)
    ensures Hereditary(j => Nested(doc, j))
  {
    hide Refs, Height;
    NestedEmpty(doc);
    forall j, k | Nested(doc, j) && k in Fields(j) ensures Nested(doc, Fields(j)[k]) {
      MemberRefs(Fields(j), k);
      MemberHeight(Fields(j), k);
    }
    forall j, i | Nested(doc, j) && 0 <= i < |Elements(j)| ensures Nested(doc, Elements(j)[i]) {
      ElementRefs(j);
      ElementHeight(Elements(j), i);
    }
  }

  lemma NestedEmpty(doc: Json)
    ensures Nested(doc, Null) && Nested(doc, Arr([])) && Nested(doc, Obj(map[]))
  {
  }

  /** Documents without dangling references are compared without meeting one. */
  lemma DocumentResolves(bd: Json, cd: Json, stack: nat)
    requires Resolvable(bd) && Resolvable(cd)
    ensures UnresolvedReference !in DocumentFate(bd, cd, stack)
  {
    hide SchemaFate, Hereditary, Refs, Height, Resolve, DocumentFate, Resolvable;
    NestedInherits(bd);
    NestedInherits(cd);
    forall b, c | Nested(bd, b) && Nested(cd, c) ensures UnresolvedReference !in SchemaFate(bd, cd, b, c, stack) {
      NothingDangles(bd, cd, b, c, stack);
    }
    forall j | Nested(bd, j) ensures Resolve(bd, j).Resolved? {
      ResolvesFor(bd, j);
    }
    forall j | Nested(cd, j) ensures Resolve(cd, j).Resolved? {
      ResolvesFor(cd, j);
    }
    DocumentAvoids(bd, cd, j => Nested(bd, j), j => Nested(cd, j), stack);
  }

  /** Documents without dangling references: the comparison completes if the baseline unfolds within the stack. */
  lemma DocumentCompletes(bd: Json, cd: Json, n: nat, stack: nat)
    requires DocumentUnfolds(bd, n) && n <= stack && Resolvable(bd) && Resolvable(cd)
    ensures DocumentFate(bd, cd, stack) == {}
  {
    hide DocumentFate, Resolvable, DocumentUnfolds;
    DocumentWalkEnds(bd, cd, n, stack);
    DocumentResolves(bd, cd, stack);
    NeitherError(DocumentFate(bd, cd, stack));
  }

  /** A schema of a document without dangling references, compared with itself: the comparison completes, and reports
      nothing, exactly when the schema unfolds within the stack. */
  lemma SchemaSelfComparison(doc: Json, s: Json, direction: Direction, stack: nat)
    requires Resolvable(doc) && Refs(s) <= Refs(doc)
    ensures Compatible(doc, doc, s, s, direction, stack) <==> Unfolds(doc, s, stack)
  {
    hide SchemaFate, SchemaClean, Resolvable, Unfolds, Refs;
    NothingDangles(doc, doc, s, s, stack);
    SelfComparisonOverflows(doc, s, stack);
    if Unfolds(doc, s, stack) {
      NeitherError(SchemaFate(doc, doc, s, s, stack));
      SchemaReflexive(doc, s, direction, stack);
    }
  }

  lemma NeitherError(errors: set<Error>)
    requires UnresolvedReference !in errors && StackOverflow !in errors
    ensures errors == {}
  {
    forall e ensures e !in errors {
      match e
      case UnresolvedReference =>
      case StackOverflow =>
    }
  }

  /** A document without dangling references, compared with itself: the comparison completes, and reports nothing,
      exactly when the schemas it compares unfold within the stack. */
  lemma SelfComparison(doc: Json, stack: nat)
    requires Resolvable(doc)
    ensures DocumentQuiet(doc, doc, stack) <==> DocumentUnfolds(doc, stack)
  {
    hide DocumentFate, DocumentClean, Resolvable, DocumentUnfolds;
    if DocumentUnfolds(doc, stack) {
      DocumentCompletes(doc, doc, stack, stack);
      DocumentReflexive(doc, stack);
    } else {
      DocumentOverflows(doc, stack);
    }
  }

  /** As they do where references are acyclic, within a depth read off the document. */
  lemma AcyclicDocumentUnfolds(doc: Json, rank: map<string, nat>, below: nat, n: nat)
    requires Acyclic(doc, rank, below) && Depth(doc, doc, below) <= n
    ensures DocumentUnfolds(doc, n)
  {
    hide Hereditary, Unfolds, Refs, Height, Resolve, OperationUnfolds, Paths, Verbs;
    var P := (j: Json) => Nested(doc, j);
    NestedInherits(doc);
    forall s | P(s) ensures Unfolds(doc, s, n) {
      AcyclicUnfolds(doc, rank, s, below);
      UnfoldsMonotone(doc, s, Depth(doc, s, below), n);
    }
    forall p, v | p in Paths(doc) && v in Verbs(PathItem(doc, p))
      ensures OperationUnfolds(doc, OperationOf(PathItem(doc, p), v), n)
    {
      OperationsInherit(P, doc, p, v);
      OperationUnfoldsBy(P, doc, OperationOf(PathItem(doc, p), v), n);
    }
  }

  lemma OperationUnfoldsBy(P: Json -> bool, doc: Json, op: Operation, n: nat)
    requires Hereditary(P) && P(doc) && OperationHas(P, op) && forall s :: P(s) ==> Unfolds(doc, s, n)
    ensures OperationUnfolds(doc, op, n)
  {
    hide Hereditary, Unfolds, Resolve, OperationHas, ParameterMap, MediaSchemas, ResponseUnfolds;
    PartsInherit(P, op);
    ParametersInherit(P, doc, op.Parameters());
    ContentInherits(P, doc, op.Body());
    assert BodyMedia(doc, op.Body()) == ContentOf(doc, op.Body());
    forall k | k in op.Responses() ensures ResponseUnfolds(doc, op.Responses()[k], n) {
      ResponseUnfoldsBy(P, doc, op.Responses()[k], n);
    }
  }

  lemma ResponseUnfoldsBy(P: Json -> bool, doc: Json, response: Json, n: nat)
    requires Hereditary(P) && P(doc) && P(response) && forall s :: P(s) ==> Unfolds(doc, s, n)
    ensures ResponseUnfolds(doc, response, n)
  {
    hide Hereditary, Unfolds, Resolve, ResolvedFields, Headers, HeaderSchema, MediaSchemas;
    HeadersInherit(P, doc, response);
    ContentInherits(P, doc, response);
  }
}
