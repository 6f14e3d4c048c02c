/** An empty report means inclusion of the accepted values: on a request whatever the baseline accepts the
    candidate accepts, on a response the other way round. */
module Soundness {
  import opened Json
  import opened Reference
  import opened SchemaRules
  import opened Semantics
  import Text

  // ---- the fragment on which the checker's reading is complete ----

  /** Beside a `$ref` stand only the annotations of a Reference Object (OpenAPI 3.1.0, section 4.8.23). */
  predicate PlainRefs(j: Json) {
    match j
    case Arr(items) => forall i :: 0 <= i < |items| ==> PlainRefs(items[i])
    case Obj(m) =>
      && ("$ref" in m && m["$ref"].Str? ==> m.Keys <= {"$ref", "summary", "description"})
      && forall k :: k in m ==> PlainRefs(m[k])
    case _ => true
  }

  const EXACT_KEYWORDS: seq<string> :=
    ["const", "pattern", "format", "contentEncoding", "contentMediaType", "allOf", "anyOf", "oneOf", "not"]

  /** `enum` is a list and the bounds are numbers, where they occur. */
  predicate WellTyped(m: Object) {
    && (Get(m, "enum").Arr? || Get(m, "enum").Null?)
    && (forall i :: 0 <= i < |MINIMUMS| ==> Get(m, MINIMUMS[i]).Num? || Get(m, MINIMUMS[i]).Null?)
    && (forall i :: 0 <= i < |MAXIMUMS| ==> Get(m, MAXIMUMS[i]).Num? || Get(m, MAXIMUMS[i]).Null?)
  }

  /** The references in this set mean the same in both documents, through everything they lead to. */
  predicate Shared(d1: Json, d2: Json, refs: set<string>) {
    forall r :: r in refs ==> SharedRef(d1, d2, refs, r)
  }

  predicate SharedRef(d1: Json, d2: Json, refs: set<string>, r: string) {
    && (r in Refs(d1) <==> r in Refs(d2))
    && (Local(r) ==>
          && Target(d1, r) == Target(d2, r)
          && (Target(d1, r).Resolved? ==> Refs(Target(d1, r).value) <= refs))
  }

  /** What the references of a schema lead to is the same in both documents. */
  ghost predicate Frozen(d1: Json, d2: Json, s: Json) {
    exists refs: set<string> :: Shared(d1, d2, refs) && Refs(s) <= refs
  }

  /** The references still unseen when the one that leads to a schema has been followed. */
  function Unseen(doc: Json, s: Json): set<string> {
    Refs(doc) + Refs(s) - Chain(doc, s)
  }

  /** The references inside the compositions of `q` mean the same in both documents, and were followed on the way to
      `q` just where they were on the way to `p`. */
  ghost predicate CompositionsKept(pd: Json, qd: Json, p: Json, q: Json) {
    exists refs: set<string> :: KeptReferences(pd, qd, p, q, refs)
  }

  ghost predicate KeptReferences(pd: Json, qd: Json, p: Json, q: Json, refs: set<string>) {
    && Shared(pd, qd, refs) && Unseen(pd, p) * refs == Unseen(qd, q) * refs
    && ComposedOf(ResolvedFields(qd, q), refs)
  }

  /** The compositions refer to nothing else. */
  predicate ComposedOf(m: Object, refs: set<string>) {
    forall i :: 0 <= i < |COMPOSITIONS| ==> Refs(Get(m, COMPOSITIONS[i])) <= refs
  }

  /** A schema for members that are not named accepts whatever it is asked. */
  predicate Open(s: Json) {
    !s.Obj? && s != Bool(false)
  }

  /** A keyword that the checker never reads is kept, with all it is judged by. */
  ghost predicate UnreadKept(pd: Json, qd: Json, p: Object, q: Object, k: string) {
    k != "$dynamicRef" && Judged(p, k) == Judged(q, k) && Frozen(pd, qd, Judged(q, k))
  }

  /** `patternProperties` is kept, or dropped where everything else is allowed. */
  ghost predicate PatternsKept(pd: Json, qd: Json, p: Object, q: Object) {
    || (Get(p, "patternProperties") == Get(q, "patternProperties")
        && Frozen(pd, qd, Get(q, "patternProperties")))
    || (Get(q, "patternProperties") == Null && Open(Additional(q)))
  }

  /** Members that are not named: allowed by `q` if by `p`. A schema for them is kept as it is. */
  ghost predicate AdditionalKept(pd: Json, qd: Json, p: Object, q: Object) {
    || Open(Additional(q)) || Additional(p) == Bool(false)
    || (Additional(p) == Additional(q) && Frozen(pd, qd, Additional(q)))
  }

  /** `prefixItems` is kept, or dropped where `q` says nothing of elements at all. */
  ghost predicate PrefixKept(pd: Json, qd: Json, p: Object, q: Object) {
    || (Get(p, "prefixItems") == Get(q, "prefixItems") && Frozen(pd, qd, Get(q, "prefixItems")))
    || (Get(q, "prefixItems") == Null && Get(q, "items") == Null)
  }

  /** The checker does not look at members and elements that only one side names. */
  ghost predicate NamesKept(pd: Json, qd: Json, p: Object, q: Object) {
    && PatternsKept(pd, qd, p, q)
    && AdditionalKept(pd, qd, p, q)
    && (Properties(q).Keys <= Properties(p).Keys
        || (Additional(p) == Bool(false) && Get(p, "patternProperties") == Null))
    && (Open(Additional(q)) || Properties(p).Keys <= Properties(q).Keys)
    && PrefixKept(pd, qd, p, q)
    && (Get(q, "items") != Null ==> Get(p, "items") != Null)
  }

  /** What the checker does not look at between two resolved schemas, where acceptance by `p` is to imply
      acceptance by `q`. */
  ghost predicate Readable(pd: Json, qd: Json, p: Object, q: Object) {
    && (forall i :: 0 <= i < |EXACT_KEYWORDS| ==>
          KindsAgree(Get(p, EXACT_KEYWORDS[i]), Get(q, EXACT_KEYWORDS[i])))
    && ("const" in q ==> "const" in p)
    && WellTyped(p)
    && (forall k :: k in UNREAD_KEYWORDS && Get(q, k) != Null ==> UnreadKept(pd, qd, p, q, k))
    && NamesKept(pd, qd, p, q)
  }

  /** What a chain of references ends in accepts nothing: the schema `false`, or a reference that leads back. */
  predicate Dead(resolved: Json) {
    resolved == Bool(false) || RefOf(resolved).Some?
  }

  /** The same along the whole walk; in addition no schema appears where `p` has none, and what accepts nothing in `q`
      accepts nothing in `p`. */
  ghost predicate Covered(pd: Json, qd: Json, p: Json, q: Json, stack: nat)
    decreases stack
  {
    stack == 0 || q == Null ||
    (&& p != Null
     && (Descends(pd, qd, p, q) ==>
           || Dead(Resolve(pd, p).value)
           || (&& !Dead(Resolve(qd, q).value)
               && CompositionsKept(pd, qd, p, q)
               && CoveredBelow(pd, qd, ResolvedFields(pd, p), ResolvedFields(qd, q), stack))))
  }

  ghost predicate CoveredBelow(pd: Json, qd: Json, p: Object, q: Object, stack: nat)
    requires stack > 0
    decreases stack, 0
  {
    && Readable(pd, qd, p, q)
    && (forall k :: k in SharedNames(p, q) ==> Covered(pd, qd, Properties(p)[k], Properties(q)[k], stack - 1))
    && Covered(pd, qd, Get(p, "items"), Get(q, "items"), stack - 1)
  }

  // ---- one pair of resolved schemas ----

  /** What an empty report establishes between the keywords of two resolved schemas. */
  ghost predicate Narrows(p: Object, q: Object) {
    && (Types(Get(q, "type")) == multiset{} || Types(Get(q, "type")) == Types(Get(p, "type")))
    && ("const" in q ==> "const" in p && p["const"] == q["const"])
    && (Get(q, "enum").Arr? ==>
          && Get(p, "enum").Arr?
          && forall x :: x in Get(p, "enum").items ==> x in Get(q, "enum").items)
    && Required(q) <= Required(p)
    && (forall i :: 0 <= i < |MINIMUMS| ==> LowerImplied(Get(p, MINIMUMS[i]), Get(q, MINIMUMS[i])))
    && (forall i :: 0 <= i < |MAXIMUMS| ==> UpperImplied(Get(p, MAXIMUMS[i]), Get(q, MAXIMUMS[i])))
    && (forall k :: k in OPAQUE_KEYWORDS && Get(q, k) != Null ==>
                      Judged(p, k) == Judged(q, k) && Get(p, k) == Get(q, k))
    && (forall i :: 0 <= i < |COMPOSITIONS| ==> Get(p, COMPOSITIONS[i]) == Get(q, COMPOSITIONS[i]))
  }

  predicate LowerImplied(p: Json, q: Json) {
    q.Num? ==> p.Num? && q.n <= p.n
  }

  predicate UpperImplied(p: Json, q: Json) {
    q.Num? ==> p.Num? && p.n <= q.n
  }

  lemma ExactKeywordEqual(pd: Json, qd: Json, p: Object, q: Object, i: nat)
    requires Readable(pd, qd, p, q) && i < |EXACT_KEYWORDS|
    requires SameKeyword(p, q, EXACT_KEYWORDS[i]) || SameKeyword(q, p, EXACT_KEYWORDS[i])
    ensures Get(p, EXACT_KEYWORDS[i]) == Get(q, EXACT_KEYWORDS[i])
  {
    var x, y := Get(p, EXACT_KEYWORDS[i]), Get(q, EXACT_KEYWORDS[i]);
    if PyEq(y, x) {
      PyEqSymmetric(y, x);
    }
    PyEqIsIdentityUpToKinds(x, y);
  }

  lemma CleanRequestNarrows(bd: Json, cd: Json, b: Object, c: Object)
    requires NodeClean(b, c, Request) && Readable(bd, cd, b, c)
    ensures Narrows(b, c)
  {
    hide Readable, BoundsClean, TypesClean, EnumClean, RequiredClean, ConstClean, SameKeywords;
    ReadableBasics(bd, cd, b, c);
    RequestBoundsNarrow(b, c);
    OpaqueEqual(bd, cd, b, c, b, c);
    CompositionsEqual(bd, cd, b, c, b, c);
    ConstNarrows(bd, cd, b, c, b, c);
    EnumNarrows(b, c, Request);
    TypesNarrow(b, c, Request);
  }

  lemma ReadableBasics(pd: Json, qd: Json, p: Object, q: Object)
    requires Readable(pd, qd, p, q)
    ensures WellTyped(p) && ("const" in q ==> "const" in p)
  {
    hide UnreadKept, NamesKept, KindsAgree, WellTyped;
  }

  lemma ConstNarrows(pd: Json, qd: Json, b: Object, c: Object, p: Object, q: Object)
    requires ConstClean(b, c) && Readable(pd, qd, p, q)
    requires (p == b && q == c) || (p == c && q == b)
    ensures "const" in q ==> "const" in p && p["const"] == q["const"]
  {
    hide Readable;
    ReadableBasics(pd, qd, p, q);
    if "const" in q {
      ExactKeywordEqual(pd, qd, p, q, 0);
    }
  }

  /** Types and required names, whichever side is given. */
  lemma TypesNarrow(b: Object, c: Object, direction: Direction)
    requires TypesClean(b, c, direction) && RequiredClean(b, c, direction)
    ensures var p, q := if direction.Request? then b else c, if direction.Request? then c else b;
            && (Types(Get(q, "type")) == multiset{} || Types(Get(q, "type")) == Types(Get(p, "type")))
            && Required(q) <= Required(p)
  {
  }

  lemma RequestBoundsNarrow(b: Object, c: Object)
    requires BoundsClean(b, c, Request) && WellTyped(b)
    ensures SameKeyword(b, c, "pattern")
    ensures forall i :: 0 <= i < |MINIMUMS| ==> LowerImplied(Get(b, MINIMUMS[i]), Get(c, MINIMUMS[i]))
    ensures forall i :: 0 <= i < |MAXIMUMS| ==> UpperImplied(Get(b, MAXIMUMS[i]), Get(c, MAXIMUMS[i]))
  {
    forall i | 0 <= i < |MINIMUMS| ensures LowerImplied(Get(b, MINIMUMS[i]), Get(c, MINIMUMS[i])) {
      assert LowerBoundClean(b, c, MINIMUMS[i], Request);
    }
    forall i | 0 <= i < |MAXIMUMS| ensures UpperImplied(Get(b, MAXIMUMS[i]), Get(c, MAXIMUMS[i])) {
      assert UpperBoundClean(b, c, MAXIMUMS[i], Request);
    }
  }

  lemma CleanResponseNarrows(bd: Json, cd: Json, b: Object, c: Object)
    requires NodeClean(b, c, Response) && Readable(cd, bd, c, b)
    ensures Narrows(c, b)
  {
    hide Readable, BoundsClean, TypesClean, EnumClean, RequiredClean, ConstClean, SameKeywords;
    ReadableBasics(cd, bd, c, b);
    ResponseBoundsNarrow(b, c);
    OpaqueEqual(cd, bd, b, c, c, b);
    CompositionsEqual(cd, bd, b, c, c, b);
    ConstNarrows(cd, bd, b, c, c, b);
    EnumNarrows(b, c, Response);
    TypesNarrow(b, c, Response);
  }

  lemma ResponseBoundsNarrow(b: Object, c: Object)
    requires BoundsClean(b, c, Response) && WellTyped(c)
    ensures SameKeyword(b, c, "pattern")
    ensures forall i :: 0 <= i < |MINIMUMS| ==> LowerImplied(Get(c, MINIMUMS[i]), Get(b, MINIMUMS[i]))
    ensures forall i :: 0 <= i < |MAXIMUMS| ==> UpperImplied(Get(c, MAXIMUMS[i]), Get(b, MAXIMUMS[i]))
  {
    forall i | 0 <= i < |MINIMUMS| ensures LowerImplied(Get(c, MINIMUMS[i]), Get(b, MINIMUMS[i])) {
      assert LowerBoundClean(b, c, MINIMUMS[i], Response);
    }
    forall i | 0 <= i < |MAXIMUMS| ensures UpperImplied(Get(c, MAXIMUMS[i]), Get(b, MAXIMUMS[i])) {
      assert UpperBoundClean(b, c, MAXIMUMS[i], Response);
    }
  }

  lemma EnumNarrows(b: Object, c: Object, direction: Direction)
    requires EnumClean(b, c, direction)
    ensures direction.Request? && WellTyped(b) && Get(c, "enum").Arr? ==>
              Get(b, "enum").Arr? && forall x :: x in Get(b, "enum").items ==> x in Get(c, "enum").items
    ensures direction.Response? && WellTyped(c) && Get(b, "enum").Arr? ==>
              Get(c, "enum").Arr? && forall x :: x in Get(c, "enum").items ==> x in Get(b, "enum").items
  {
    var was, now := Get(b, "enum"), Get(c, "enum");
    if was.Arr? && now.Arr? {
      var olds, news := (set x <- was.items), (set x <- now.items);
      assert forall x :: x in was.items ==> x in olds;
      assert forall x :: x in now.items ==> x in news;
    }
  }

  lemma OpaqueEqual(pd: Json, qd: Json, b: Object, c: Object, p: Object, q: Object)
    requires SameKeywords(b, c, MEDIA_KEYWORDS) && SameKeyword(b, c, "pattern") && Readable(pd, qd, p, q)
    requires (p == b && q == c) || (p == c && q == b)
    ensures forall k :: k in OPAQUE_KEYWORDS && Get(q, k) != Null ==>
                          Judged(p, k) == Judged(q, k) && Get(p, k) == Get(q, k)
  {
    hide Readable, NamesKept, Frozen;
    assert MEDIA_KEYWORDS[0] == EXACT_KEYWORDS[2] && MEDIA_KEYWORDS[1] == EXACT_KEYWORDS[3]
        && MEDIA_KEYWORDS[2] == EXACT_KEYWORDS[4] && EXACT_KEYWORDS[1] == "pattern";
    assert SameKeyword(b, c, MEDIA_KEYWORDS[0]) && SameKeyword(b, c, MEDIA_KEYWORDS[1])
        && SameKeyword(b, c, MEDIA_KEYWORDS[2]);
    ExactKeywordEqual(pd, qd, p, q, 1);
    ExactKeywordEqual(pd, qd, p, q, 2);
    ExactKeywordEqual(pd, qd, p, q, 3);
    ExactKeywordEqual(pd, qd, p, q, 4);
    forall k | k in OPAQUE_KEYWORDS && Get(q, k) != Null
      ensures Judged(p, k) == Judged(q, k) && Get(p, k) == Get(q, k)
    {
      if k in UNREAD_KEYWORDS {
        UnreadIsKept(pd, qd, p, q, k);
      }
    }
  }

  lemma UnreadIsKept(pd: Json, qd: Json, p: Object, q: Object, k: string)
    requires Readable(pd, qd, p, q) && k in UNREAD_KEYWORDS && Get(q, k) != Null
    ensures Judged(p, k) == Judged(q, k) && Get(p, k) == Get(q, k)
  {
    hide NamesKept, Frozen, KindsAgree, WellTyped;
    assert UnreadKept(pd, qd, p, q, k);
  }

  lemma CompositionsEqual(pd: Json, qd: Json, b: Object, c: Object, p: Object, q: Object)
    requires SameKeywords(b, c, COMPOSITIONS) && Readable(pd, qd, p, q)
    requires (p == b && q == c) || (p == c && q == b)
    ensures forall i :: 0 <= i < |COMPOSITIONS| ==> Get(p, COMPOSITIONS[i]) == Get(q, COMPOSITIONS[i])
  {
    hide Readable;
    forall i | 0 <= i < |COMPOSITIONS| ensures Get(p, COMPOSITIONS[i]) == Get(q, COMPOSITIONS[i]) {
      assert COMPOSITIONS[i] == EXACT_KEYWORDS[i + 5];
      assert SameKeyword(b, c, COMPOSITIONS[i]);
      ExactKeywordEqual(pd, qd, p, q, i + 5);
    }
  }

  lemma NarrowedBounds(p: Object, q: Object, v: Json)
    requires forall i :: 0 <= i < |MINIMUMS| ==> LowerImplied(Get(p, MINIMUMS[i]), Get(q, MINIMUMS[i]))
    requires forall i :: 0 <= i < |MAXIMUMS| ==> UpperImplied(Get(p, MAXIMUMS[i]), Get(q, MAXIMUMS[i]))
    requires forall k :: k in LOWER_BOUNDS ==> AboveBound(k, Get(p, k), v)
    requires forall k :: k in UPPER_BOUNDS ==> BelowBound(k, Get(p, k), v)
    ensures forall k :: k in LOWER_BOUNDS ==> AboveBound(k, Get(q, k), v)
    ensures forall k :: k in UPPER_BOUNDS ==> BelowBound(k, Get(q, k), v)
  {
    hide Measure, LowerImplied, UpperImplied;
    BoundKeywords();
    forall k | k in LOWER_BOUNDS ensures AboveBound(k, Get(q, k), v) {
      var i :| 0 <= i < |MINIMUMS| && MINIMUMS[i] == k;
      LowerStep(k, Get(p, k), Get(q, k), v);
    }
    forall k | k in UPPER_BOUNDS ensures BelowBound(k, Get(q, k), v) {
      var i :| 0 <= i < |MAXIMUMS| && MAXIMUMS[i] == k;
      UpperStep(k, Get(p, k), Get(q, k), v);
    }
  }

  lemma LowerStep(k: string, p: Json, q: Json, v: Json)
    requires LowerImplied(p, q) && AboveBound(k, p, v)
    ensures AboveBound(k, q, v)
  {
    hide Measure;
  }

  lemma UpperStep(k: string, p: Json, q: Json, v: Json)
    requires UpperImplied(p, q) && BelowBound(k, p, v)
    ensures BelowBound(k, q, v)
  {
    hide Measure;
  }

  /** The checker's bound keywords are those that bound something. */
  lemma BoundKeywords()
    ensures forall k :: k in LOWER_BOUNDS ==> exists i :: 0 <= i < |MINIMUMS| && MINIMUMS[i] == k
    ensures forall k :: k in UPPER_BOUNDS ==> exists i :: 0 <= i < |MAXIMUMS| && MAXIMUMS[i] == k
  {
    assert MINIMUMS[0] == "minLength" && MINIMUMS[1] == "minItems" && MINIMUMS[2] == "minProperties";
    assert MINIMUMS[3] == "minimum" && MINIMUMS[4] == "exclusiveMinimum";
    assert MAXIMUMS[0] == "maxLength" && MAXIMUMS[1] == "maxItems" && MAXIMUMS[2] == "maxProperties";
    assert MAXIMUMS[3] == "maximum" && MAXIMUMS[4] == "exclusiveMaximum";
  }

  lemma {:induction false} StringsListed(xs: seq<Json>)
    ensures forall s :: s in OnlyStrings(xs) <==> Str(s) in xs
  {
    if xs != [] {
      StringsListed(xs[1..]);
      assert xs == [xs[0]] + xs[1..];
    }
  }

  /** The types the checker reads are the ones that count. */
  lemma TypesRead(m: Object, v: Json)
    ensures TypeHolds(m, v) <==>
              Types(Get(m, "type")) == multiset{} || exists t :: t in Types(Get(m, "type")) && HasType(v, t)
  {
    hide HasType;
    if Get(m, "type").Arr? {
      TypeListRead(m, v, Get(m, "type").items);
    } else if Get(m, "type").Str? {
      TypeNameRead(m, v, Get(m, "type").s);
    }
  }

  lemma TypeNameRead(m: Object, v: Json, name: string)
    requires Get(m, "type") == Str(name)
    ensures TypeHolds(m, v) <==> exists t :: t in Types(Get(m, "type")) && HasType(v, t)
  {
    hide HasType;
    assert name in Types(Get(m, "type"));
  }

  lemma TypeListRead(m: Object, v: Json, names: seq<Json>)
    requires Get(m, "type") == Arr(names)
    ensures TypeHolds(m, v) <==>
              Types(Arr(names)) == multiset{} || exists t :: t in Types(Arr(names)) && HasType(v, t)
  {
    hide HasType, Types;
    TypeListStrings(names);
    if exists x :: x in names && x.Str? && HasType(v, x.s) {
      var x :| x in names && x.Str? && HasType(v, x.s);
      assert Str(x.s) in names;
    }
    forall t | t in Types(Arr(names)) && HasType(v, t) ensures exists x :: x in names && x.Str? && HasType(v, x.s) {
      assert Str(t) in names && Str(t).s == t;
    }
  }

  lemma TypeListStrings(names: seq<Json>)
    ensures forall t :: t in Types(Arr(names)) <==> Str(t) in names
    ensures Types(Arr(names)) == multiset{} <==> forall x :: x in names ==> !x.Str?
  {
    StringsListed(names);
    var types := Types(Arr(names));
    if exists x :: x in names && x.Str? {
      var x :| x in names && x.Str?;
      assert Str(x.s) in names && x.s in types;
    }
    forall t | t in types ensures exists x :: x in names && x.Str? {
      assert Str(t) in names && Str(t).Str?;
    }
    assert types != multiset{} ==> exists t :: t in types;
  }

  lemma RequiredRead(m: Object, v: Json)
    ensures RequiredHolds(m, v) <==> (v.Obj? ==> Required(m) <= v.fields.Keys)
  {
    StringsListed(Elements(Get(m, "required")));
    if v.Obj? && Get(m, "required").Arr? && RequiredHolds(m, v) {
      forall name | name in Required(m) ensures name in v.fields {
        assert Str(name) in Get(m, "required").items && Str(name).Str?;
      }
    }
  }

  lemma NarrowedAsserts(meaning: Meaning, p: Object, q: Object, v: Json)
    requires Narrows(p, q) && Asserts(meaning, p, v)
    ensures Asserts(meaning, q, v)
  {
    hide HasType, Types, Required, TypeHolds, RequiredHolds, AboveBound, BelowBound, LowerImplied, UpperImplied,
      JsonEq;
    TypesRead(p, v);
    TypesRead(q, v);
    RequiredRead(p, v);
    RequiredRead(q, v);
    NarrowedBounds(p, q, v);
    assert OpaqueHolds(meaning, q, v) by {
      forall k | k in OPAQUE_KEYWORDS && Get(q, k) != Null ensures meaning(k, Judged(q, k), v) {
        assert Judged(p, k) == Judged(q, k) && Get(p, k) == Get(q, k);
      }
    }
    assert EnumHolds(q, v) by {
      if Get(q, "enum").Arr? {
        var x :| x in Get(p, "enum").items && JsonEq(v, x);
        assert x in Get(q, "enum").items;
      }
    }
  }

  // ---- schemas whose references are shared mean the same in both documents ----

  lemma {:induction false} SharedValid(meaning: Meaning, d1: Json, d2: Json, refs: set<string>, s: Json, v: Json,
                                       u1: set<string>, u2: set<string>)
    requires Shared(d1, d2, refs) && Refs(s) <= refs && u1 * refs == u2 * refs
    ensures Valid(meaning, d1, s, v, u1) <==> Valid(meaning, d2, s, v, u2)
    decreases v, 2, u1, s, 2
  {
    hide Asserts, ValidMembers, ValidItems, ValidCompositions, Accepts, Shared, Target;
    if s.Obj? {
      var m := s.fields;
      if RefOf(s).Some? {
        SharedTarget(meaning, d1, d2, refs, s, v, u1, u2);
      }
      SharedMembersValid(meaning, d1, d2, refs, m, v);
      SharedItemsValid(meaning, d1, d2, refs, m, v);
      SharedCompositionsValid(meaning, d1, d2, refs, m, v, u1, u2);
    }
  }

  /** What the reference of a schema says of a value. */
  ghost predicate ValidTarget(meaning: Meaning, doc: Json, r: string, v: Json, u: set<string>) {
    Local(r) && r in u && Target(doc, r).Resolved? && Valid(meaning, doc, Target(doc, r).value, v, u - {r})
  }

  lemma {:induction false} SharedTarget(meaning: Meaning, d1: Json, d2: Json, refs: set<string>, s: Json, v: Json,
                                        u1: set<string>, u2: set<string>)
    requires Shared(d1, d2, refs) && Refs(s) <= refs && u1 * refs == u2 * refs && RefOf(s).Some?
    ensures ValidTarget(meaning, d1, RefOf(s).value, v, u1) <==> ValidTarget(meaning, d2, RefOf(s).value, v, u2)
    decreases v, 2, u1, s, 1
  {
    hide Valid, Target;
    RefAmongRefs(s);
    var r := RefOf(s).value;
    assert SharedRef(d1, d2, refs, r);
    assert r in u1 <==> r in u1 * refs;
    assert r in u2 <==> r in u2 * refs;
    if Local(r) && r in u1 && Target(d1, r).Resolved? {
      assert (u1 - {r}) * refs == u1 * refs - {r} && (u2 - {r}) * refs == u2 * refs - {r};
      SharedValid(meaning, d1, d2, refs, Target(d1, r).value, v, u1 - {r}, u2 - {r});
    }
  }

  lemma {:induction false} SharedAccepts(meaning: Meaning, d1: Json, d2: Json, refs: set<string>, s: Json, v: Json)
    requires Shared(d1, d2, refs) && Refs(s) <= refs
    ensures Accepts(meaning, d1, s, v) <==> Accepts(meaning, d2, s, v)
    decreases v, 3
  {
    hide Valid, SharedRef;
    forall r | r in refs ensures r in Refs(d1) <==> r in Refs(d2) {
      SharedRefs(d1, d2, refs, r);
    }
    assert (Refs(d1) + Refs(s)) * refs == (Refs(d2) + Refs(s)) * refs;
    SharedValid(meaning, d1, d2, refs, s, v, Refs(d1) + Refs(s), Refs(d2) + Refs(s));
  }

  lemma SharedRefs(d1: Json, d2: Json, refs: set<string>, r: string)
    requires Shared(d1, d2, refs) && r in refs
    ensures r in Refs(d1) <==> r in Refs(d2)
  {
    assert SharedRef(d1, d2, refs, r);
  }

  lemma {:induction false} SharedMembersValid(meaning: Meaning, d1: Json, d2: Json, refs: set<string>, m: Object,
                                              v: Json)
    requires Shared(d1, d2, refs) && Refs(Obj(m)) <= refs
    ensures ValidMembers(meaning, d1, m, v) <==> ValidMembers(meaning, d2, m, v)
    decreases v, 1
  {
    hide Shared, ValidMember;
    if v.Obj? {
      forall k | k in v.fields
        ensures ValidMember(meaning, d1, m, k, v.fields[k]) <==> ValidMember(meaning, d2, m, k, v.fields[k])
      {
        SharedMemberValid(meaning, d1, d2, refs, m, k, v.fields[k]);
      }
    }
  }

  lemma {:induction false} SharedMemberValid(meaning: Meaning, d1: Json, d2: Json, refs: set<string>, m: Object,
                                             k: string, x: Json)
    requires Shared(d1, d2, refs) && Refs(Obj(m)) <= refs
    ensures ValidMember(meaning, d1, m, k, x) <==> ValidMember(meaning, d2, m, k, x)
    decreases x, 4
  {
    hide Shared, Accepts;
    PartRefs(m);
    if k in Properties(m) {
      SharedAccepts(meaning, d1, d2, refs, Properties(m)[k], x);
    }
    forall pattern | pattern in PatternProperties(m)
      ensures Accepts(meaning, d1, PatternProperties(m)[pattern], x)
         <==> Accepts(meaning, d2, PatternProperties(m)[pattern], x)
    {
      SharedAccepts(meaning, d1, d2, refs, PatternProperties(m)[pattern], x);
    }
    SharedAccepts(meaning, d1, d2, refs, Additional(m), x);
  }

  lemma {:induction false} SharedItemsValid(meaning: Meaning, d1: Json, d2: Json, refs: set<string>, m: Object,
                                            v: Json)
    requires Shared(d1, d2, refs) && Refs(Obj(m)) <= refs
    ensures ValidItems(meaning, d1, m, v) <==> ValidItems(meaning, d2, m, v)
    decreases v, 1
  {
    hide Shared, Accepts;
    PartRefs(m);
    if v.Arr? {
      forall i | 0 <= i < |v.items|
        ensures ValidItem(meaning, d1, m, i, v.items[i]) <==> ValidItem(meaning, d2, m, i, v.items[i])
      {
        if i < |PrefixItems(m)| {
          SharedAccepts(meaning, d1, d2, refs, PrefixItems(m)[i], v.items[i]);
        } else if "items" in m {
          SharedAccepts(meaning, d1, d2, refs, m["items"], v.items[i]);
        }
      }
    }
  }

  lemma {:induction false} SharedCompositionsValid(meaning: Meaning, d1: Json, d2: Json, refs: set<string>, m: Object,
                                                   v: Json, u1: set<string>, u2: set<string>)
    requires Shared(d1, d2, refs) && u1 * refs == u2 * refs
    requires forall i :: 0 <= i < |COMPOSITIONS| ==> Refs(Get(m, COMPOSITIONS[i])) <= refs
    ensures ValidCompositions(meaning, d1, m, v, u1) <==> ValidCompositions(meaning, d2, m, v, u2)
    decreases v, 2, u1, Obj(m), 1
  {
    hide Valid, ValidIn, Excluded, Combined, Shared;
    CompositionNames();
    SharedInValid(meaning, d1, d2, refs, m, "allOf", v, u1, u2);
    SharedInValid(meaning, d1, d2, refs, m, "anyOf", v, u1, u2);
    SharedInValid(meaning, d1, d2, refs, m, "oneOf", v, u1, u2);
    SharedExcluded(meaning, d1, d2, refs, m, v, u1, u2);
  }

  lemma {:induction false} SharedExcluded(meaning: Meaning, d1: Json, d2: Json, refs: set<string>, m: Object, v: Json,
                                          u1: set<string>, u2: set<string>)
    requires Shared(d1, d2, refs) && u1 * refs == u2 * refs && Refs(Get(m, "not")) <= refs
    ensures Excluded(meaning, d1, m, v, u1) == Excluded(meaning, d2, m, v, u2)
    decreases v, 2, u1, Obj(m), 0
  {
    hide Valid, Shared;
    if "not" in m {
      SharedValid(meaning, d1, d2, refs, m["not"], v, u1, u2);
    }
  }

  lemma {:induction false} SharedInValid(meaning: Meaning, d1: Json, d2: Json, refs: set<string>, m: Object,
                                         key: string, v: Json, u1: set<string>, u2: set<string>)
    requires Shared(d1, d2, refs) && u1 * refs == u2 * refs && Refs(Get(m, key)) <= refs
    ensures ValidIn(meaning, d1, m, key, v, u1) == ValidIn(meaning, d2, m, key, v, u2)
    decreases v, 2, u1, Obj(m), 0
  {
    hide ValidAt, Shared;
    if key in m {
      SharedListValid(meaning, d1, d2, refs, m[key], v, u1, u2);
    }
  }

  lemma {:induction false} SharedListValid(meaning: Meaning, d1: Json, d2: Json, refs: set<string>, list: Json,
                                           v: Json, u1: set<string>, u2: set<string>)
    requires Shared(d1, d2, refs) && u1 * refs == u2 * refs && Refs(list) <= refs
    ensures ValidAt(meaning, d1, list, v, u1) == ValidAt(meaning, d2, list, v, u2)
    decreases v, 2, u1, list, 0
  {
    hide Valid, Shared;
    ElementRefs(list);
    forall i | 0 <= i < |Elements(list)|
      ensures Valid(meaning, d1, Elements(list)[i], v, u1) <==> Valid(meaning, d2, Elements(list)[i], v, u2)
    {
      SharedValid(meaning, d1, d2, refs, Elements(list)[i], v, u1, u2);
    }
  }

  /** A frozen schema accepts the same values in both documents. */
  lemma FrozenAccepts(meaning: Meaning, d1: Json, d2: Json, s: Json, v: Json)
    requires Frozen(d1, d2, s)
    ensures Accepts(meaning, d1, s, v) <==> Accepts(meaning, d2, s, v)
  {
    hide Shared, Accepts;
    var refs: set<string> :| Shared(d1, d2, refs) && Refs(s) <= refs;
    SharedAccepts(meaning, d1, d2, refs, s, v);
  }

  /** A part of a frozen schema is frozen. */
  lemma FrozenPart(d1: Json, d2: Json, s: Json, part: Json)
    requires Frozen(d1, d2, s) && Refs(part) <= Refs(s)
    ensures Frozen(d1, d2, part)
  {
    hide Shared;
    var refs: set<string> :| Shared(d1, d2, refs) && Refs(s) <= refs;
    assert Refs(part) <= refs;
  }

  /** Every schema is frozen between a document and itself. */
  lemma FrozenInPlace(d: Json, s: Json)
    ensures Frozen(d, d, s)
  {
    hide Shared;
    SharedInPlace(d, s);
  }

  lemma SharedInPlace(d: Json, s: Json)
    ensures Shared(d, d, Refs(d) + Refs(s))
  {
    hide Target;
    var refs := Refs(d) + Refs(s);
    forall r | r in refs ensures SharedRef(d, d, refs, r) {
      TargetRefs(d, r);
    }
  }

  lemma ReadableInPlace(d: Json, m: Object)
    requires WellTyped(m) && Get(m, "$dynamicRef") == Null
    ensures Readable(d, d, m, m)
  {
    hide Frozen, KindsAgree, WellTyped, Judged;
    forall i | 0 <= i < |EXACT_KEYWORDS| ensures KindsAgree(Get(m, EXACT_KEYWORDS[i]), Get(m, EXACT_KEYWORDS[i])) {
      PyEqIsIdentityUpToKinds(Get(m, EXACT_KEYWORDS[i]), Get(m, EXACT_KEYWORDS[i]));
    }
    forall s ensures Frozen(d, d, s) {
      FrozenInPlace(d, s);
    }
  }

  /** What the checker compares along the whole walk is of the types it compares: enums are lists and bounds numbers. */
  ghost predicate Typed(doc: Json, s: Json, n: nat)
    decreases n, 0
  {
    n == 0 || s == Null || Resolve(doc, s).Unresolved? || TypedBelow(doc, ResolvedFields(doc, s), n - 1)
  }

  ghost predicate TypedBelow(doc: Json, m: Object, n: nat)
    decreases n, 1
  {
    && WellTyped(m) && Get(m, "$dynamicRef") == Null
    && (forall k :: k in Properties(m) ==> Typed(doc, Properties(m)[k], n))
    && Typed(doc, Get(m, "items"), n)
  }

  /** A schema kept as it is in a document kept as it is stays within the fragment, whatever its keywords, its
      references and its recursion. */
  lemma {:induction false} CoveredInPlace(d: Json, s: Json, n: nat)
    requires Typed(d, s, n)
    ensures Covered(d, d, s, s, n)
    decreases n, 1
  {
    hide Readable, CompositionsKept, Resolve, TypedBelow, CoveredBelow;
    if n > 0 && s != Null && Resolve(d, s).Resolved? {
      CompositionsInPlace(d, s);
      CoveredBelowInPlace(d, ResolvedFields(d, s), n);
    }
  }

  lemma {:induction false} CoveredBelowInPlace(d: Json, m: Object, n: nat)
    requires n > 0 && TypedBelow(d, m, n - 1)
    ensures CoveredBelow(d, d, m, m, n)
    decreases n, 0
  {
    hide Readable, WellTyped, Covered, Typed;
    ReadableInPlace(d, m);
    forall k | k in Properties(m) ensures Covered(d, d, Properties(m)[k], Properties(m)[k], n - 1) {
      CoveredInPlace(d, Properties(m)[k], n - 1);
    }
    CoveredInPlace(d, Get(m, "items"), n - 1);
  }

  lemma CompositionsInPlace(d: Json, s: Json)
    ensures CompositionsKept(d, d, s, s)
  {
    hide Shared, Unseen, Refs;
    var m := ResolvedFields(d, s);
    var refs := Refs(d) + Refs(Obj(m));
    SharedInPlace(d, Obj(m));
    PartRefs(m);
    assert KeptReferences(d, d, s, s, refs);
  }

  lemma TargetRefs(d: Json, r: string)
    ensures Local(r) && Target(d, r).Resolved? ==> Refs(Target(d, r).value) <= Refs(d)
  {
    if Local(r) {
      WalkRefs(d, Text.Split(r[2..], '/'));
    }
  }

  lemma CompositionNames()
    ensures |COMPOSITIONS| == 4 && COMPOSITIONS[0] == "allOf" && COMPOSITIONS[1] == "anyOf"
    ensures COMPOSITIONS[2] == "oneOf" && COMPOSITIONS[3] == "not"
  {
  }

  /** The references of the schemas of members, elements and compositions are references of the whole. */
  lemma PartRefs(m: Object)
    ensures forall k :: k in Properties(m) ==> Refs(Properties(m)[k]) <= Refs(Obj(m))
    ensures forall k :: k in PatternProperties(m) ==> Refs(PatternProperties(m)[k]) <= Refs(Obj(m))
    ensures forall i :: 0 <= i < |PrefixItems(m)| ==> Refs(PrefixItems(m)[i]) <= Refs(Obj(m))
    ensures Refs(Additional(m)) <= Refs(Obj(m)) && Refs(Get(m, "items")) <= Refs(Obj(m))
    ensures forall i :: 0 <= i < |COMPOSITIONS| ==> Refs(Get(m, COMPOSITIONS[i])) <= Refs(Obj(m))
  {
    hide Refs;
    forall key ensures Refs(Get(m, key)) <= Refs(Obj(m)) {
      GetRefs(m, key);
    }
    FieldRefs(Get(m, "properties"));
    FieldRefs(Get(m, "patternProperties"));
    ElementRefs(Get(m, "prefixItems"));
    AdditionalRefs(m);
  }

  lemma AdditionalRefs(m: Object)
    ensures Refs(Additional(m)) <= Refs(Obj(m))
  {
    if "additionalProperties" in m {
      MemberRefs(m, "additionalProperties");
    }
  }

  lemma GetRefs(m: Object, key: string)
    ensures Refs(Get(m, key)) <= Refs(Obj(m))
  {
    if key in m {
      MemberRefs(m, key);
    }
  }

  lemma FieldRefs(j: Json)
    ensures forall k :: k in Fields(j) ==> Refs(Fields(j)[k]) <= Refs(j)
  {
    forall k | k in Fields(j) ensures Refs(Fields(j)[k]) <= Refs(j) {
      MemberRefs(j.fields, k);
    }
  }

  lemma RefAmongRefs(s: Json)
    ensures RefOf(s).Some? ==> RefOf(s).value in Refs(s)
  {
  }

  lemma MemberRefs(m: Object, key: string)
    requires key in m
    ensures Refs(m[key]) <= Refs(Obj(m))
  {
  }

  lemma ElementRefs(j: Json)
    ensures forall x :: x in Elements(j) ==> Refs(x) <= Refs(j)
  {
  }
}
