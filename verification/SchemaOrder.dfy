/** "No breaking change" is a preorder on schemas, each read in its own document. */
module SchemaOrder {
  import opened Json
  import opened Reference
  import opened SchemaRules
  import opened Inclusion

  // ---- conditions along the unfolding of one schema ----

  /** What composing two steps asks for: the first schema's `const` is not null, and the middle one's enum and bounds
      have the types the checker compares, since it passes over others in silence. */
  datatype Rule = NoNullConst | Comparable

  predicate Obeys(m: Object, rule: Rule) {
    match rule
    case NoNullConst => "const" in m ==> m["const"] != Null
    case Comparable =>
      && (Get(m, "enum").Arr? || Get(m, "enum").Null?)
      && (forall i :: 0 <= i < |MINIMUMS| ==> Get(m, MINIMUMS[i]).Null? || IsNumber(Get(m, MINIMUMS[i])))
      && (forall i :: 0 <= i < |MAXIMUMS| ==> Get(m, MAXIMUMS[i]).Null? || IsNumber(Get(m, MAXIMUMS[i])))
  }

  /** The rule holds at every schema that `n` frames of the walk can reach. */
  ghost predicate Along(doc: Json, s: Json, n: nat, rule: Rule)
    decreases n, 0
  {
    n == 0 || AlongBelow(doc, ResolvedFields(doc, s), n - 1, rule)
  }

  ghost predicate AlongBelow(doc: Json, m: Object, n: nat, rule: Rule)
    decreases n, 1
  {
    && Obeys(m, rule)
    && (forall k :: k in Properties(m) ==> Along(doc, Properties(m)[k], n, rule))
    && ("items" in m ==> Along(doc, m["items"], n, rule))
  }

  // ---- one pair of resolved schemas ----

  lemma KeywordsReflexive(m: Object)
    ensures forall k :: SameKeyword(m, m, k)
  {
    forall k ensures SameKeyword(m, m, k) {
      PyEqReflexive(Get(m, k));
    }
  }

  lemma NodeReflexive(m: Object, direction: Direction)
    ensures NodeClean(m, m, direction)
  {
    KeywordsReflexive(m);
    assert "const" in m ==> SameKeyword(m, m, "const");
  }

  lemma KeywordTransitive(a: Object, b: Object, c: Object, k: string)
    requires SameKeyword(a, b, k) && SameKeyword(b, c, k)
    ensures SameKeyword(a, c, k)
  {
    PyEqTransitive(Get(a, k), Get(b, k), Get(c, k));
  }

  lemma KeywordsTransitive(a: Object, b: Object, c: Object, keywords: seq<string>)
    requires SameKeywords(a, b, keywords) && SameKeywords(b, c, keywords)
    ensures SameKeywords(a, c, keywords)
  {
    forall i | 0 <= i < |keywords| ensures SameKeyword(a, c, keywords[i]) {
      assert SameKeyword(a, b, keywords[i]) && SameKeyword(b, c, keywords[i]);
      KeywordTransitive(a, b, c, keywords[i]);
    }
  }

  lemma AssertionsTransitive(a: Object, b: Object, c: Object, direction: Direction)
    requires AssertionsClean(a, b, direction) && AssertionsClean(b, c, direction)
    requires Obeys(a, NoNullConst) && Obeys(b, Comparable)
    ensures AssertionsClean(a, c, direction)
  {
    KeywordsTransitive(a, b, c, MEDIA_KEYWORDS);
    if "const" in a {
      assert "const" in b;
      PyEqTransitive(a["const"], b["const"], Get(c, "const"));
    }
  }

  lemma BoundsTransitive(a: Object, b: Object, c: Object, direction: Direction)
    requires BoundsClean(a, b, direction) && BoundsClean(b, c, direction) && Obeys(b, Comparable)
    ensures BoundsClean(a, c, direction)
  {
    forall i | 0 <= i < |MINIMUMS| ensures LowerBoundClean(a, c, MINIMUMS[i], direction) {
      assert LowerBoundClean(a, b, MINIMUMS[i], direction) && LowerBoundClean(b, c, MINIMUMS[i], direction);
    }
    forall i | 0 <= i < |MAXIMUMS| ensures UpperBoundClean(a, c, MAXIMUMS[i], direction) {
      assert UpperBoundClean(a, b, MAXIMUMS[i], direction) && UpperBoundClean(b, c, MAXIMUMS[i], direction);
    }
    KeywordTransitive(a, b, c, "pattern");
  }

  lemma NodeTransitive(a: Object, b: Object, c: Object, direction: Direction)
    requires NodeClean(a, b, direction) && NodeClean(b, c, direction)
    requires Obeys(a, NoNullConst) && Obeys(b, Comparable)
    ensures NodeClean(a, c, direction)
  {
    hide AssertionsClean, BoundsClean, SameKeywords, Obeys;
    AssertionsTransitive(a, b, c, direction);
    BoundsTransitive(a, b, c, direction);
    KeywordsTransitive(a, b, c, COMPOSITIONS);
  }

  // ---- the whole walk ----

  /** A schema compared with itself reports nothing. */
  lemma {:induction false} SchemaReflexive(doc: Json, s: Json, direction: Direction, stack: nat)
    ensures SchemaClean(doc, doc, s, s, direction, stack)
    decreases stack, 0
  {
    hide SchemaClean, ResolvedClean, Resolve;
    if stack == 0 || s == Null || !Descends(doc, doc, s, s) {
      NotReached(doc, doc, s, s, direction, stack);
    } else {
      Descent(doc, doc, s, s, direction, stack);
      ReflexiveBelow(doc, ResolvedFields(doc, s), direction, stack - 1);
    }
  }

  lemma NotReached(bd: Json, cd: Json, b: Json, c: Json, direction: Direction, stack: nat)
    requires stack == 0 || b == Null || (c != Null && !Descends(bd, cd, b, c))
    ensures SchemaClean(bd, cd, b, c, direction, stack)
  {
    hide Resolve, ResolvedClean;
  }

  lemma {:induction false} ReflexiveBelow(doc: Json, m: Object, direction: Direction, stack: nat)
    ensures ResolvedClean(doc, doc, m, m, direction, stack)
    decreases stack, 1
  {
    hide SchemaClean, NodeClean, PropertiesClean, PropertyClean;
    NodeReflexive(m, direction);
    forall k | k in Properties(m) ensures PropertyClean(doc, doc, m, m, k, direction, stack) {
      PropertyCases(doc, doc, m, m, k, direction, stack);
      SchemaReflexive(doc, Properties(m)[k], direction, stack);
    }
    PropertiesCases(doc, doc, m, m, direction, stack);
    if "items" in m {
      SchemaReflexive(doc, m["items"], direction, stack);
    }
  }

  /** The comparison completes and reports nothing. */
  ghost predicate Compatible(bd: Json, cd: Json, b: Json, c: Json, direction: Direction, stack: nat) {
    SchemaFate(bd, cd, b, c, stack) == {} && SchemaClean(bd, cd, b, c, direction, stack)
  }

  ghost predicate CompatibleBelow(bd: Json, cd: Json, b: Object, c: Object, direction: Direction, stack: nat) {
    ResolvedFate(bd, cd, b, c, stack) == {} && ResolvedClean(bd, cd, b, c, direction, stack)
  }

  lemma CompatibleReaches(bd: Json, cd: Json, b: Json, c: Json, direction: Direction, stack: nat)
    requires Compatible(bd, cd, b, c, direction, stack) && b != Null
    ensures stack > 0 && c != Null && Descends(bd, cd, b, c)
  {
    hide SchemaFate, SchemaClean, Resolve;
    StackLeft(bd, cd, b, c, direction, stack);
    if c == Null {
      NothingLeft(bd, cd, b, direction, stack);
    } else {
      FateShows(bd, cd, b, c, stack);
    }
  }

  lemma CompatibleDescends(bd: Json, cd: Json, b: Json, c: Json, direction: Direction, stack: nat)
    requires Compatible(bd, cd, b, c, direction, stack) && b != Null
    ensures stack > 0 && c != Null && Descends(bd, cd, b, c)
    ensures CompatibleBelow(bd, cd, ResolvedFields(bd, b), ResolvedFields(cd, c), direction, stack - 1)
  {
    hide SchemaFate, SchemaClean, ResolvedFate, ResolvedClean, Resolve;
    CompatibleReaches(bd, cd, b, c, direction, stack);
    Descent(bd, cd, b, c, direction, stack);
  }

  lemma CompatibleAscends(bd: Json, cd: Json, b: Json, c: Json, direction: Direction, stack: nat)
    requires stack > 0 && Descends(bd, cd, b, c)
    requires CompatibleBelow(bd, cd, ResolvedFields(bd, b), ResolvedFields(cd, c), direction, stack - 1)
    ensures Compatible(bd, cd, b, c, direction, stack)
  {
    hide SchemaFate, SchemaClean, ResolvedFate, ResolvedClean, Resolve;
    Descent(bd, cd, b, c, direction, stack);
  }

  lemma CompatibleAbsent(bd: Json, cd: Json, c: Json, direction: Direction, stack: nat)
    requires stack > 0
    ensures Compatible(bd, cd, Null, c, direction, stack)
  {
    hide SchemaFate, SchemaClean;
    NothingDeclared(bd, cd, c, direction, stack);
  }

  lemma CompatibleProperty(bd: Json, cd: Json, b: Object, c: Object, direction: Direction, stack: nat, name: string)
    requires CompatibleBelow(bd, cd, b, c, direction, stack) && name in Properties(b)
    ensures name in Properties(c)
    ensures Compatible(bd, cd, Properties(b)[name], Properties(c)[name], direction, stack)
  {
    hide SchemaFate, SchemaClean, NodeClean, PropertiesFate, PropertyFate, PropertiesClean, PropertyClean, ItemsFate,
      ItemsClean;
    PropertiesCases(bd, cd, b, c, direction, stack);
    PropertyCases(bd, cd, b, c, name, direction, stack);
  }

  lemma CompatibleItems(bd: Json, cd: Json, b: Object, c: Object, direction: Direction, stack: nat)
    requires CompatibleBelow(bd, cd, b, c, direction, stack) && "items" in b
    ensures Compatible(bd, cd, b["items"], Get(c, "items"), direction, stack)
  {
    hide SchemaFate, SchemaClean, NodeClean, PropertiesFate, PropertiesClean, ItemsFate, ItemsClean;
    ItemsCases(bd, cd, b, c, direction, stack);
  }

  lemma CompatibleFromParts(bd: Json, cd: Json, b: Object, c: Object, direction: Direction, stack: nat)
    requires NodeClean(b, c, direction) && Properties(b).Keys <= Properties(c).Keys
    requires forall k :: k in Properties(b) ==>
               Compatible(bd, cd, Properties(b)[k], Properties(c)[k], direction, stack)
    requires "items" in b ==> Compatible(bd, cd, b["items"], Get(c, "items"), direction, stack)
    ensures CompatibleBelow(bd, cd, b, c, direction, stack)
  {
    hide SchemaFate, SchemaClean, NodeClean, PropertiesFate, PropertyFate, PropertiesClean, PropertyClean;
    forall k | k in Properties(b)
      ensures PropertyFate(bd, cd, b, c, k, stack) == {} && PropertyClean(bd, cd, b, c, k, direction, stack)
    {
      PropertyCases(bd, cd, b, c, k, direction, stack);
    }
    PropertiesCases(bd, cd, b, c, direction, stack);
    assert PropertiesFate(bd, cd, b, c, stack) == {};
    assert PropertiesClean(bd, cd, b, c, direction, stack);
    assert ItemsFate(bd, cd, b, c, stack) == {};
    assert ItemsClean(bd, cd, b, c, direction, stack);
    assert ResolvedFate(bd, cd, b, c, stack) == {};
  }

  /** Two compatible steps compose, with references resolved in three documents. */
  lemma {:induction false} SchemaTransitive(ad: Json, bd: Json, cd: Json, a: Json, b: Json, c: Json,
                                            direction: Direction, stack: nat)
    requires Compatible(ad, bd, a, b, direction, stack) && Compatible(bd, cd, b, c, direction, stack)
    requires Along(ad, a, stack, NoNullConst) && Along(bd, b, stack, Comparable)
    ensures Compatible(ad, cd, a, c, direction, stack)
    decreases stack, 0
  {
    hide Compatible, CompatibleBelow, AlongBelow, Resolve;
    StackLeft(ad, bd, a, b, direction, stack);
    if a == Null {
      CompatibleAbsent(ad, cd, c, direction, stack);
    } else {
      CompatibleDescends(ad, bd, a, b, direction, stack);
      CompatibleDescends(bd, cd, b, c, direction, stack);
      TransitiveBelow(ad, bd, cd, ResolvedFields(ad, a), ResolvedFields(bd, b), ResolvedFields(cd, c), direction,
                      stack - 1);
      CompatibleAscends(ad, cd, a, c, direction, stack);
    }
  }

  lemma StackLeft(bd: Json, cd: Json, b: Json, c: Json, direction: Direction, stack: nat)
    requires Compatible(bd, cd, b, c, direction, stack)
    ensures stack > 0
  {
    hide SchemaFate, SchemaClean;
    if stack == 0 {
      NoStack(bd, cd, b, c);
    }
  }

  lemma {:induction false} TransitiveBelow(ad: Json, bd: Json, cd: Json, a: Object, b: Object, c: Object,
                                           direction: Direction, stack: nat)
    requires CompatibleBelow(ad, bd, a, b, direction, stack) && CompatibleBelow(bd, cd, b, c, direction, stack)
    requires AlongBelow(ad, a, stack, NoNullConst) && AlongBelow(bd, b, stack, Comparable)
    ensures CompatibleBelow(ad, cd, a, c, direction, stack)
    decreases stack, 2
  {
    hide Compatible, CompatibleBelow, Along, NodeClean, Obeys;
    BelowNode(ad, bd, a, b, direction, stack);
    BelowNode(bd, cd, b, c, direction, stack);
    NodeTransitive(a, b, c, direction);
    forall k | k in Properties(a)
      ensures k in Properties(c) && Compatible(ad, cd, Properties(a)[k], Properties(c)[k], direction, stack)
    {
      CompatibleProperty(ad, bd, a, b, direction, stack, k);
      CompatibleProperty(bd, cd, b, c, direction, stack, k);
      SchemaTransitive(ad, bd, cd, Properties(a)[k], Properties(b)[k], Properties(c)[k], direction, stack);
    }
    if "items" in a {
      ItemsTransitive(ad, bd, cd, a, b, c, direction, stack);
    }
    CompatibleFromParts(ad, cd, a, c, direction, stack);
  }

  lemma BelowNode(bd: Json, cd: Json, b: Object, c: Object, direction: Direction, stack: nat)
    requires CompatibleBelow(bd, cd, b, c, direction, stack)
    ensures NodeClean(b, c, direction)
  {
    hide NodeClean, PropertiesClean, ItemsClean;
  }

  lemma {:induction false} ItemsTransitive(ad: Json, bd: Json, cd: Json, a: Object, b: Object, c: Object,
                                           direction: Direction, stack: nat)
    requires CompatibleBelow(ad, bd, a, b, direction, stack) && CompatibleBelow(bd, cd, b, c, direction, stack)
    requires AlongBelow(ad, a, stack, NoNullConst) && AlongBelow(bd, b, stack, Comparable)
    requires "items" in a
    ensures Compatible(ad, cd, a["items"], Get(c, "items"), direction, stack)
    decreases stack, 1
  {
    hide Compatible, CompatibleBelow, Along;
    CompatibleItems(ad, bd, a, b, direction, stack);
    if a["items"] == Null {
      StackLeft(ad, bd, a["items"], Get(b, "items"), direction, stack);
      CompatibleAbsent(ad, cd, Get(c, "items"), direction, stack);
    } else {
      CompatibleDescends(ad, bd, a["items"], Get(b, "items"), direction, stack);
      CompatibleItems(bd, cd, b, c, direction, stack);
      SchemaTransitive(ad, bd, cd, a["items"], b["items"], Get(c, "items"), direction, stack);
    }
  }
}
