/** What the checker reports is about what schemas admit: keyword by keyword no report means that nothing is lost, and a
    schema that only admits more, at every level, is compared in silence. */
module Exactness {
  import opened Json
  import opened Reference
  import opened SchemaRules
  import opened SchemaOrder
  import opened Semantics
  import opened Soundness

  /** The side whose instances must stay acceptable: the baseline on a request, the candidate on a response. */
  function Given<T>(b: T, c: T, direction: Direction): T {
    if direction.Request? then b else c
  }

  /** The side that must accept them. */
  function Taker<T>(b: T, c: T, direction: Direction): T {
    if direction.Request? then c else b
  }

  // ---- required ----

  /** A request may lose required members and a response must keep them as they are: in terms of objects. */
  lemma RequiredIsExact(b: Object, c: Object)
    ensures RequiredClean(b, c, Request) <==>
              forall m: Object :: RequiredHolds(b, Obj(m)) ==> RequiredHolds(c, Obj(m))
    ensures RequiredClean(b, c, Response) <==>
              forall m: Object :: RequiredHolds(b, Obj(m)) <==> RequiredHolds(c, Obj(m))
  {
    hide Required, RequiredHolds;
    forall m: Object
      ensures RequiredHolds(b, Obj(m)) <==> Required(b) <= m.Keys
      ensures RequiredHolds(c, Obj(m)) <==> Required(c) <= m.Keys
    {
      RequiredRead(b, Obj(m));
      RequiredRead(c, Obj(m));
    }
    var justB: Object, justC: Object := map k | k in Required(b) :: Null, map k | k in Required(c) :: Null;
    assert justB.Keys == Required(b) && justC.Keys == Required(c);
    assert RequiredHolds(b, Obj(justB)) && RequiredHolds(c, Obj(justC));
  }

  // ---- enum ----

  /** `enum` lists the value, or there is no list. */
  predicate Listed(m: Object, x: Json) {
    Get(m, "enum").Arr? ==> x in Get(m, "enum").items
  }

  /** No report exactly when every value listed on the side that is given is listed on the other. */
  lemma EnumIsExact(b: Object, c: Object, direction: Direction)
    requires Get(b, "enum").Arr? || Get(b, "enum") == Null
    requires Get(c, "enum").Arr? || Get(c, "enum") == Null
    ensures EnumClean(b, c, direction) <==>
              forall x :: Listed(Given(b, c, direction), x) ==> Listed(Taker(b, c, direction), x)
  {
    var p, q := Given(b, c, direction), Taker(b, c, direction);
    if Get(q, "enum").Arr? {
      var other := Unlisted(Get(q, "enum").items);
      assert !Listed(q, other);
      if Get(p, "enum").Arr? {
        EnumInclusion(p, q);
      }
    }
  }

  lemma EnumInclusion(p: Object, q: Object)
    requires Get(p, "enum").Arr? && Get(q, "enum").Arr?
    ensures (set x <- Get(p, "enum").items) <= (set x <- Get(q, "enum").items) <==>
              forall x :: Listed(p, x) ==> Listed(q, x)
  {
    var ps, qs := (set x <- Get(p, "enum").items), (set x <- Get(q, "enum").items);
    if ps <= qs {
      forall x | Listed(p, x) ensures Listed(q, x) {
        assert x in ps;
      }
    } else {
      var x :| x in ps && x !in qs;
      assert Listed(p, x) && !Listed(q, x);
    }
  }

  /** Some value is not in the list. */
  lemma {:induction false} Unlisted(items: seq<Json>) returns (x: Json)
    ensures x !in items && x.Num?
    ensures forall y :: y in items && y.Num? ==> y.n < x.n
  {
    if items == [] {
      x := Num(0.0, false);
    } else {
      var rest := Unlisted(items[1..]);
      var first := items[0];
      assert items == [first] + items[1..];
      x := if first.Num? && first.n >= rest.n then Num(first.n + 1.0, false) else rest;
    }
  }

  // ---- bounds ----

  /** The quantity is admitted by a lower, or by an upper bound. */
  predicate AtLeast(bound: Json, n: real) {
    bound.Num? ==> n >= bound.n
  }

  predicate AtMost(bound: Json, n: real) {
    bound.Num? ==> n <= bound.n
  }

  predicate Bound(m: Object, keyword: string) {
    Get(m, keyword).Num? || Get(m, keyword) == Null
  }

  /** No report exactly when every quantity admitted on the side that is given is admitted on the other. */
  lemma LowerBoundIsExact(b: Object, c: Object, keyword: string, direction: Direction)
    requires Bound(b, keyword) && Bound(c, keyword)
    ensures var p, q := Get(Given(b, c, direction), keyword), Get(Taker(b, c, direction), keyword);
            LowerBoundClean(b, c, keyword, direction) <==> forall n :: AtLeast(p, n) ==> AtLeast(q, n)
  {
    var p, q := Get(Given(b, c, direction), keyword), Get(Taker(b, c, direction), keyword);
    if q.Num? {
      assert !AtLeast(q, q.n - 1.0) && AtLeast(Null, q.n - 1.0);
      if p.Num? {
        assert AtLeast(p, p.n);
      }
    }
  }

  lemma UpperBoundIsExact(b: Object, c: Object, keyword: string, direction: Direction)
    requires Bound(b, keyword) && Bound(c, keyword)
    ensures var p, q := Get(Given(b, c, direction), keyword), Get(Taker(b, c, direction), keyword);
            UpperBoundClean(b, c, keyword, direction) <==> forall n :: AtMost(p, n) ==> AtMost(q, n)
  {
    var p, q := Get(Given(b, c, direction), keyword), Get(Taker(b, c, direction), keyword);
    if q.Num? {
      assert !AtMost(q, q.n + 1.0) && AtMost(Null, q.n + 1.0);
      if p.Num? {
        assert AtMost(p, p.n);
      }
    }
  }

  // ---- additionalProperties ----

  function Others(m: Object): Json {
    GetOr(m, "additionalProperties", Bool(true))
  }

  /** With the keyword absent or a boolean: no report exactly when members that are not named are accepted on the other
      side wherever they are on the side that is given. */
  lemma AdditionalIsExact(meaning: Meaning, doc: Json, b: Object, c: Object, direction: Direction)
    requires Others(b).Bool? && Others(c).Bool?
    ensures AdditionalClean(b, c, direction) <==>
              forall x :: Accepts(meaning, doc, Others(Given(b, c, direction)), x) ==>
                            Accepts(meaning, doc, Others(Taker(b, c, direction)), x)
  {
    hide Accepts;
    BooleanInclusion(meaning, doc, Others(Given(b, c, direction)), Others(Taker(b, c, direction)));
  }

  lemma BooleanInclusion(meaning: Meaning, doc: Json, p: Json, q: Json)
    requires p.Bool? && q.Bool?
    ensures (q == Bool(false) ==> p == Bool(false)) <==>
              forall x :: Accepts(meaning, doc, p, x) ==> Accepts(meaning, doc, q, x)
  {
    hide Accepts;
    forall x ensures Accepts(meaning, doc, p, x) <==> p.b {
      BooleanAccepts(meaning, doc, p, x);
    }
    forall x ensures Accepts(meaning, doc, q, x) <==> q.b {
      BooleanAccepts(meaning, doc, q, x);
    }
    assert Accepts(meaning, doc, p, Null) <==> p.b;
  }

  lemma BooleanAccepts(meaning: Meaning, doc: Json, s: Json, x: Json)
    requires s.Bool?
    ensures Accepts(meaning, doc, s, x) <==> s.b
  {
  }

  // ---- types ----

  /** No report exactly when the types are the same with repetition, or the other side imposes none: a list of types
      that grows is reported, although it admits more. */
  lemma TypeIsExact(b: Object, c: Object, direction: Direction)
    ensures TypesClean(b, c, direction) <==>
              || Types(Get(b, "type")) == Types(Get(c, "type"))
              || Types(Get(Taker(b, c, direction), "type")) == multiset{}
  {
  }

  // ---- no false alarms ----

  /** Keywords that must not change at all. */
  const FIXED: set<string> :=
    {"const", "format", "contentEncoding", "contentMediaType", "pattern", "allOf", "anyOf", "oneOf", "not"}

  /** `q` admits whatever `p` admits, as far as can be told keyword by keyword. All others may change freely. */
  ghost predicate Relaxed(p: Object, q: Object) {
    && (forall k :: k in FIXED ==> Get(p, k) == Get(q, k))
    && (Get(q, "type") == Null || Get(q, "type") == Get(p, "type"))
    && (Get(q, "enum") == Null
        || (Get(p, "enum").Arr? && Get(q, "enum").Arr?
            && forall x :: x in Get(p, "enum").items ==> x in Get(q, "enum").items))
    && (forall m: Object :: RequiredHolds(p, Obj(m)) ==> RequiredHolds(q, Obj(m)))
    && (forall k :: k in LOWER_BOUNDS ==>
          Get(q, k) == Null || (Get(p, k).Num? && Get(q, k).Num? && Get(q, k).n <= Get(p, k).n))
    && (forall k :: k in UPPER_BOUNDS ==>
          Get(q, k) == Null || (Get(p, k).Num? && Get(q, k).Num? && Get(p, k).n <= Get(q, k).n))
    && (Others(q) == Bool(false) ==> Others(p) == Bool(false))
  }

  /** On a response the same members stay required, too. */
  ghost predicate RelaxedFor(b: Object, c: Object, direction: Direction) {
    && Relaxed(Given(b, c, direction), Taker(b, c, direction))
    && (direction.Response? ==> forall m: Object :: RequiredHolds(b, Obj(m)) ==> RequiredHolds(c, Obj(m)))
  }

  /** The schema is only relaxed, in itself and in the named members and elements of the baseline, through the
      references of both documents. */
  ghost predicate Tolerable(bd: Json, cd: Json, b: Json, c: Json, direction: Direction, n: nat)
    decreases n, 0
  {
    n > 0 &&
    (b == Null ||
     (&& c != Null && Resolve(bd, b).Resolved? && Resolve(cd, c).Resolved?
      && TolerableBelow(bd, cd, ResolvedFields(bd, b), ResolvedFields(cd, c), direction, n - 1)))
  }

  ghost predicate TolerableBelow(bd: Json, cd: Json, b: Object, c: Object, direction: Direction, n: nat)
    decreases n, 1
  {
    && RelaxedFor(b, c, direction)
    && (forall k :: k in Fields(Get(b, "properties")) ==>
          && k in Fields(Get(c, "properties"))
          && Tolerable(bd, cd, Fields(Get(b, "properties"))[k], Fields(Get(c, "properties"))[k], direction, n))
    && ("items" in b ==> Tolerable(bd, cd, b["items"], Get(c, "items"), direction, n))
  }

  lemma FixedKept(b: Object, c: Object, keywords: seq<string>)
    requires forall k :: k in FIXED ==> Get(b, k) == Get(c, k)
    requires forall i :: 0 <= i < |keywords| ==> keywords[i] in FIXED
    ensures SameKeywords(b, c, keywords)
  {
    forall i | 0 <= i < |keywords| ensures SameKeyword(b, c, keywords[i]) {
      PyEqReflexive(Get(b, keywords[i]));
    }
  }

  lemma FixedKeywords()
    ensures forall i :: 0 <= i < |MEDIA_KEYWORDS| ==> MEDIA_KEYWORDS[i] in FIXED
    ensures forall i :: 0 <= i < |COMPOSITIONS| ==> COMPOSITIONS[i] in FIXED
    ensures "pattern" in FIXED && "const" in FIXED
  {
  }

  lemma CheckedBounds()
    ensures forall i :: 0 <= i < |MINIMUMS| ==> MINIMUMS[i] in LOWER_BOUNDS
    ensures forall i :: 0 <= i < |MAXIMUMS| ==> MAXIMUMS[i] in UPPER_BOUNDS
  {
  }

  lemma RelaxedBounds(b: Object, c: Object, direction: Direction)
    requires RelaxedFor(b, c, direction)
    ensures BoundsClean(b, c, direction)
  {
    hide RequiredHolds, SameKeyword, LowerBoundClean, UpperBoundClean;
    CheckedBounds();
    FixedKeywords();
    SamePattern(b, c);
    forall i | 0 <= i < |MINIMUMS| ensures LowerBoundClean(b, c, MINIMUMS[i], direction) {
      RelaxedLower(b, c, MINIMUMS[i], direction);
    }
    forall i | 0 <= i < |MAXIMUMS| ensures UpperBoundClean(b, c, MAXIMUMS[i], direction) {
      RelaxedUpper(b, c, MAXIMUMS[i], direction);
    }
  }

  lemma RelaxedLower(b: Object, c: Object, keyword: string, direction: Direction)
    requires RelaxedFor(b, c, direction) && keyword in LOWER_BOUNDS
    ensures LowerBoundClean(b, c, keyword, direction)
  {
    hide RequiredHolds;
  }

  lemma RelaxedUpper(b: Object, c: Object, keyword: string, direction: Direction)
    requires RelaxedFor(b, c, direction) && keyword in UPPER_BOUNDS
    ensures UpperBoundClean(b, c, keyword, direction)
  {
    hide RequiredHolds;
  }

  lemma SamePattern(b: Object, c: Object)
    requires Get(b, "pattern") == Get(c, "pattern")
    ensures SameKeyword(b, c, "pattern")
  {
    PyEqReflexive(Get(b, "pattern"));
  }

  lemma RelaxedAssertions(b: Object, c: Object, direction: Direction)
    requires RelaxedFor(b, c, direction)
    ensures AssertionsClean(b, c, direction)
  {
    hide RequiredHolds, SameKeywords, Types, RequiredClean, TypesClean, EnumClean, PyEq;
    RequiredIsExact(b, c);
    FixedKeywords();
    FixedKept(b, c, MEDIA_KEYWORDS);
    PyEqReflexive(Get(b, "const"));
    RelaxedTypes(b, c, direction);
    RelaxedEnum(b, c, direction);
  }

  lemma RelaxedTypes(b: Object, c: Object, direction: Direction)
    requires RelaxedFor(b, c, direction)
    ensures TypesClean(b, c, direction)
  {
    hide RequiredHolds;
    TypeIsExact(b, c, direction);
  }

  lemma RelaxedEnum(b: Object, c: Object, direction: Direction)
    requires RelaxedFor(b, c, direction)
    ensures EnumClean(b, c, direction)
  {
    hide RequiredHolds;
    var p, q := Given(b, c, direction), Taker(b, c, direction);
    if Get(q, "enum").Arr? {
      EnumInclusion(p, q);
    }
  }

  lemma RelaxedNode(b: Object, c: Object, direction: Direction)
    requires RelaxedFor(b, c, direction)
    ensures NodeClean(b, c, direction)
  {
    hide RequiredHolds, AssertionsClean, BoundsClean, SameKeywords;
    RelaxedAssertions(b, c, direction);
    RelaxedBounds(b, c, direction);
    FixedKeywords();
    FixedKept(b, c, COMPOSITIONS);
  }

  /** No false alarm: a schema that is only relaxed is compared in silence, whatever else changes in it. */
  lemma {:induction false} RelaxingIsSilent(bd: Json, cd: Json, b: Json, c: Json, direction: Direction, n: nat)
    requires Tolerable(bd, cd, b, c, direction, n)
    ensures Compatible(bd, cd, b, c, direction, n)
    decreases n, 0
  {
    hide Compatible, CompatibleBelow, TolerableBelow, Resolve;
    if b == Null {
      CompatibleAbsent(bd, cd, c, direction, n);
    } else {
      RelaxingBelow(bd, cd, ResolvedFields(bd, b), ResolvedFields(cd, c), direction, n - 1);
      CompatibleAscends(bd, cd, b, c, direction, n);
    }
  }

  lemma {:induction false} RelaxingBelow(bd: Json, cd: Json, b: Object, c: Object, direction: Direction, n: nat)
    requires TolerableBelow(bd, cd, b, c, direction, n)
    ensures CompatibleBelow(bd, cd, b, c, direction, n)
    decreases n, 1
  {
    hide Compatible, CompatibleBelow, Tolerable, RelaxedFor, NodeClean;
    RelaxedNode(b, c, direction);
    forall k | k in Properties(b)
      ensures k in Properties(c) && Compatible(bd, cd, Properties(b)[k], Properties(c)[k], direction, n)
    {
      RelaxingIsSilent(bd, cd, Properties(b)[k], Properties(c)[k], direction, n);
    }
    if "items" in b {
      RelaxingIsSilent(bd, cd, b["items"], Get(c, "items"), direction, n);
    }
    CompatibleFromParts(bd, cd, b, c, direction, n);
  }
}
