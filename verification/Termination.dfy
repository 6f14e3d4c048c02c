/** Why the comparison ends: only the baseline drives the recursion of `_compare_schema`. */
module Termination {
  import opened Json
  import opened Reference
  import opened SchemaRules
  import opened Soundness
  import Text

  /** The baseline unfolds, through properties, items and references, within `n` frames. */
  ghost predicate Unfolds(doc: Json, s: Json, n: nat)
    decreases n, 0
  {
    n > 0 && (s == Null || Resolve(doc, s).Unresolved? || UnfoldsBelow(doc, ResolvedFields(doc, s), n - 1))
  }

  ghost predicate UnfoldsBelow(doc: Json, m: Object, n: nat)
    decreases n, 1
  {
    && (forall k :: k in Properties(m) ==> Unfolds(doc, Properties(m)[k], n))
    && ("items" in m ==> Unfolds(doc, m["items"], n))
  }

  lemma PropertiesFateMember(bd: Json, cd: Json, was: Object, now: Object, stack: nat, e: Error)
    requires e in PropertiesFate(bd, cd, was, now, stack)
    ensures exists k :: k in SharedNames(was, now) && e in PropertyFate(bd, cd, was, now, k, stack)
  {
    hide PropertyFate;
  }

  /** Where the walk does not descend, a frame is all it takes. */
  lemma Leaf(bd: Json, cd: Json, b: Json, c: Json, direction: Direction, stack: nat, more: nat)
    requires 0 < stack <= more && !Descends(bd, cd, b, c)
    ensures StackOverflow !in SchemaFate(bd, cd, b, c, stack)
    ensures SchemaFate(bd, cd, b, c, more) == SchemaFate(bd, cd, b, c, stack)
    ensures SchemaClean(bd, cd, b, c, direction, more) <==> SchemaClean(bd, cd, b, c, direction, stack)
  {
    hide SchemaFate, SchemaClean;
    LeafFate(bd, cd, b, c, stack);
    LeafFate(bd, cd, b, c, more);
    LeafClean(bd, cd, b, c, direction, stack);
    LeafClean(bd, cd, b, c, direction, more);
  }

  lemma LeafFate(bd: Json, cd: Json, b: Json, c: Json, stack: nat)
    requires 0 < stack && !Descends(bd, cd, b, c)
    ensures SchemaFate(bd, cd, b, c, stack) == if b == Null || c == Null then {} else {UnresolvedReference}
  {
    hide Resolve, ResolvedFate;
  }

  lemma LeafClean(bd: Json, cd: Json, b: Json, c: Json, direction: Direction, stack: nat)
    requires 0 < stack && !Descends(bd, cd, b, c)
    ensures SchemaClean(bd, cd, b, c, direction, stack) <==> b == Null || c != Null
  {
    hide Resolve, ResolvedClean;
  }

  lemma UnfoldsStep(doc: Json, s: Json, n: nat)
    requires Unfolds(doc, s, n)
    ensures n > 0
    ensures s != Null && Resolve(doc, s).Resolved? ==> UnfoldsBelow(doc, ResolvedFields(doc, s), n - 1)
  {
    hide UnfoldsBelow, Resolve;
  }

  /** A baseline with a finite unfolding never exhausts the stack, however cyclic the candidate is. */
  lemma {:induction false} FiniteBaselineTerminates(bd: Json, cd: Json, b: Json, c: Json, n: nat, stack: nat)
    requires Unfolds(bd, b, n) && n <= stack
    ensures StackOverflow !in SchemaFate(bd, cd, b, c, stack)
    decreases stack, 0
  {
    hide SchemaFate, ResolvedFate, Resolve, Unfolds, UnfoldsBelow;
    UnfoldsStep(bd, b, n);
    if !Descends(bd, cd, b, c) {
      Leaf(bd, cd, b, c, Request, stack, stack);
    } else {
      Descent(bd, cd, b, c, Request, stack);
      FiniteBelow(bd, cd, ResolvedFields(bd, b), ResolvedFields(cd, c), n - 1, stack - 1);
    }
  }

  lemma {:induction false} FiniteBelow(bd: Json, cd: Json, was: Object, now: Object, n: nat, stack: nat)
    requires UnfoldsBelow(bd, was, n) && n <= stack
    ensures StackOverflow !in ResolvedFate(bd, cd, was, now, stack)
    decreases stack, 1
  {
    hide SchemaFate, Unfolds, PropertiesFate, PropertyFate;
    if StackOverflow in PropertiesFate(bd, cd, was, now, stack) {
      PropertiesFateMember(bd, cd, was, now, stack, StackOverflow);
      var k :| k in SharedNames(was, now) && StackOverflow in PropertyFate(bd, cd, was, now, k, stack);
      PropertyCases(bd, cd, was, now, k, Request, stack);
      FiniteBaselineTerminates(bd, cd, Properties(was)[k], Properties(now)[k], n, stack);
    }
    if "items" in was {
      FiniteBaselineTerminates(bd, cd, was["items"], Get(now, "items"), n, stack);
    }
  }

  /** Once the stack suffices, a larger one changes neither the exceptions nor the report. */
  lemma {:induction false} StackIndependent(bd: Json, cd: Json, b: Json, c: Json, direction: Direction,
                                            stack: nat, more: nat)
    requires StackOverflow !in SchemaFate(bd, cd, b, c, stack) && stack <= more
    ensures SchemaFate(bd, cd, b, c, more) == SchemaFate(bd, cd, b, c, stack)
    ensures SchemaClean(bd, cd, b, c, direction, more) <==> SchemaClean(bd, cd, b, c, direction, stack)
    decreases stack, 0
  {
    hide SchemaFate, SchemaClean, ResolvedFate, ResolvedClean, Resolve;
    if stack == 0 {
      NoStack(bd, cd, b, c);
    } else if !Descends(bd, cd, b, c) {
      Leaf(bd, cd, b, c, direction, stack, more);
    } else {
      Descent(bd, cd, b, c, direction, stack);
      Descent(bd, cd, b, c, direction, more);
      StackIndependentBelow(bd, cd, ResolvedFields(bd, b), ResolvedFields(cd, c), direction, stack - 1, more - 1);
    }
  }

  lemma {:induction false} StackIndependentBelow(bd: Json, cd: Json, was: Object, now: Object, direction: Direction,
                                                 stack: nat, more: nat)
    requires StackOverflow !in ResolvedFate(bd, cd, was, now, stack) && stack <= more
    ensures ResolvedFate(bd, cd, was, now, more) == ResolvedFate(bd, cd, was, now, stack)
    ensures ResolvedClean(bd, cd, was, now, direction, more) <==> ResolvedClean(bd, cd, was, now, direction, stack)
    decreases stack, 2
  {
    hide SchemaFate, SchemaClean, NodeClean, PropertiesFate, PropertiesClean, ItemsFate, ItemsClean;
    PropertiesIndependent(bd, cd, was, now, direction, stack, more);
    ItemsIndependent(bd, cd, was, now, direction, stack, more);
  }

  lemma {:induction false} PropertiesIndependent(bd: Json, cd: Json, was: Object, now: Object, direction: Direction,
                                                 stack: nat, more: nat)
    requires StackOverflow !in PropertiesFate(bd, cd, was, now, stack) && stack <= more
    ensures PropertiesFate(bd, cd, was, now, more) == PropertiesFate(bd, cd, was, now, stack)
    ensures PropertiesClean(bd, cd, was, now, direction, more) <==> PropertiesClean(bd, cd, was, now, direction, stack)
    decreases stack, 1
  {
    hide SchemaFate, SchemaClean, PropertiesFate, PropertyFate, PropertiesClean, PropertyClean;
    forall k | k in Properties(was)
      ensures k in Properties(now) ==>
                PropertyFate(bd, cd, was, now, k, more) == PropertyFate(bd, cd, was, now, k, stack)
      ensures PropertyClean(bd, cd, was, now, k, direction, more)
         <==> PropertyClean(bd, cd, was, now, k, direction, stack)
    {
      PropertyCases(bd, cd, was, now, k, direction, stack);
      PropertyCases(bd, cd, was, now, k, direction, more);
      if k in Properties(now) {
        PropertyRaises(bd, cd, was, now, k, stack);
        StackIndependent(bd, cd, Properties(was)[k], Properties(now)[k], direction, stack, more);
      }
    }
    SamePropertyFates(bd, cd, was, now, stack, more);
    PropertiesCases(bd, cd, was, now, direction, stack);
    PropertiesCases(bd, cd, was, now, direction, more);
  }

  lemma {:induction false} ItemsIndependent(bd: Json, cd: Json, was: Object, now: Object, direction: Direction,
                                            stack: nat, more: nat)
    requires StackOverflow !in ItemsFate(bd, cd, was, now, stack) && stack <= more
    ensures ItemsFate(bd, cd, was, now, more) == ItemsFate(bd, cd, was, now, stack)
    ensures ItemsClean(bd, cd, was, now, direction, more) <==> ItemsClean(bd, cd, was, now, direction, stack)
    decreases stack, 1
  {
    hide SchemaFate, SchemaClean;
    if "items" in was {
      StackIndependent(bd, cd, was["items"], Get(now, "items"), direction, stack, more);
    }
  }

  lemma SamePropertyFates(bd: Json, cd: Json, was: Object, now: Object, stack: nat, more: nat)
    requires forall k :: k in SharedNames(was, now) ==>
               PropertyFate(bd, cd, was, now, k, more) == PropertyFate(bd, cd, was, now, k, stack)
    ensures PropertiesFate(bd, cd, was, now, more) == PropertiesFate(bd, cd, was, now, stack)
  {
    hide PropertyFate;
  }

  /** Exactly the schemas that do not unfold within the stack exhaust it when compared with themselves. */
  lemma {:induction false} SelfComparisonOverflows(doc: Json, s: Json, stack: nat)
    ensures StackOverflow in SchemaFate(doc, doc, s, s, stack) <==> !Unfolds(doc, s, stack)
    decreases stack, 0
  {
    hide SchemaFate, ResolvedFate, Resolve, Unfolds, UnfoldsBelow;
    if Unfolds(doc, s, stack) {
      FiniteBaselineTerminates(doc, doc, s, s, stack, stack);
    } else if stack == 0 {
      NoStack(doc, doc, s, s);
    } else {
      Unending(doc, s, stack);
      Descent(doc, doc, s, s, Request, stack);
      OverflowsBelow(doc, ResolvedFields(doc, s), stack - 1);
    }
  }

  lemma Unending(doc: Json, s: Json, stack: nat)
    requires !Unfolds(doc, s, stack) && stack > 0
    ensures Descends(doc, doc, s, s) && !UnfoldsBelow(doc, ResolvedFields(doc, s), stack - 1)
  {
    hide Resolve, UnfoldsBelow;
  }

  lemma {:induction false} OverflowsBelow(doc: Json, m: Object, stack: nat)
    requires !UnfoldsBelow(doc, m, stack)
    ensures StackOverflow in ResolvedFate(doc, doc, m, m, stack)
    decreases stack, 1
  {
    hide SchemaFate, Unfolds, PropertyFate;
    if "items" in m && !Unfolds(doc, m["items"], stack) {
      SelfComparisonOverflows(doc, m["items"], stack);
    } else {
      var k :| k in Properties(m) && !Unfolds(doc, Properties(m)[k], stack);
      SelfComparisonOverflows(doc, Properties(m)[k], stack);
      PropertyCases(doc, doc, m, m, k, Request, stack);
      PropertyRaises(doc, doc, m, m, k, stack);
    }
  }

  // ---- acyclic references ----

  /** Every reference reachable from a value has a rank, and ranks fall along references. */
  ghost predicate Ranked(doc: Json, rank: map<string, nat>, s: Json, below: nat) {
    && (forall r :: r in Refs(s) ==> r in rank && rank[r] < below)
    && (forall r, q :: r in rank && Local(r) && Target(doc, r).Resolved? && q in Refs(Target(doc, r).value) ==>
          q in rank && rank[q] < rank[r])
  }

  lemma {:induction false} UnfoldsMonotone(doc: Json, s: Json, n: nat, more: nat)
    requires Unfolds(doc, s, n) && n <= more
    ensures Unfolds(doc, s, more)
    decreases n
  {
    hide Resolve;
    if s != Null && Resolve(doc, s).Resolved? {
      var m := ResolvedFields(doc, s);
      forall k | k in Properties(m) ensures Unfolds(doc, Properties(m)[k], more - 1) {
        UnfoldsMonotone(doc, Properties(m)[k], n - 1, more - 1);
      }
      if "items" in m {
        UnfoldsMonotone(doc, m["items"], n - 1, more - 1);
      }
    }
  }

  /** A reference already visited does not matter to a chain that cannot come back to it. */
  lemma {:induction false} VisitedIrrelevant(doc: Json, rank: map<string, nat>, s: Json, below: nat,
                                             v1: set<string>, v2: set<string>)
    requires Ranked(doc, rank, s, below)
    requires forall r :: r in v1 + v2 ==> r in rank && below <= rank[r]
    ensures ResolveFrom(doc, s, v1) == ResolveFrom(doc, s, v2)
    decreases below
  {
    var ref := RefOf(s);
    if ref.Some? && Local(ref.value) {
      var r := ref.value;
      RefAmongRefs(s);
      if Target(doc, r).Resolved? {
        VisitedIrrelevant(doc, rank, Target(doc, r).value, rank[r], v1 + {r}, v2 + {r});
      }
    }
  }

  lemma OneHop(doc: Json, s: Json)
    requires RefOf(s).Some? && Local(RefOf(s).value) && Target(doc, RefOf(s).value).Resolved?
    ensures Resolve(doc, s) == ResolveFrom(doc, Target(doc, RefOf(s).value).value, {RefOf(s).value})
  {
    assert {} + {RefOf(s).value} == {RefOf(s).value};
  }

  lemma StaysPut(doc: Json, s: Json)
    requires RefOf(s).None? || !Local(RefOf(s).value) || Target(doc, RefOf(s).value).Unresolved?
    ensures Resolve(doc, s).Unresolved? || Resolve(doc, s).value == s
  {
  }

  lemma SameResolution(doc: Json, s: Json, target: Json, n: nat)
    requires Resolve(doc, s) == Resolve(doc, target) && Unfolds(doc, target, n)
    requires target == Null ==> Resolve(doc, s) == Resolved(Null)
    ensures Unfolds(doc, s, n)
  {
    hide Resolve;
  }

  // ---- how deep values are ----

  ghost function Highest(heights: set<nat>): (h: nat)
    ensures forall x :: x in heights ==> x <= h
  {
    if heights == {} then 0
    else
      var x :| x in heights;
      assert forall y <- heights :: y == x || y in heights - {x};
      var rest := Highest(heights - {x});
      if x < rest then rest else x
  }

  /** Lists and mappings are higher than anything in them. */
  ghost function Height(j: Json): (h: nat)
    ensures 0 < h
  {
    match j
    case Arr(items) => 1 + Highest(set x | x in items :: Height(x))
    case Obj(m) => 1 + Highest(set k | k in m :: Height(m[k]))
    case _ => 1
  }

  lemma MemberHeight(m: Object, key: string)
    requires key in m
    ensures Height(m[key]) < Height(Obj(m))
  {
    var heights := set k | k in m :: Height(m[k]);
    assert Height(m[key]) in heights;
  }

  lemma ElementHeight(items: seq<Json>, i: nat)
    requires i < |items|
    ensures Height(items[i]) < Height(Arr(items))
  {
    var heights := set x | x in items :: Height(x);
    assert items[i] in items;
    assert Height(items[i]) in heights;
  }

  lemma {:induction false} WalkHeight(at: Json, parts: seq<string>)
    ensures Walk(at, parts).Resolved? ==> Height(Walk(at, parts).value) <= Height(at)
    decreases parts
  {
    hide Height;
    if parts != [] && Unescape(parts[0]) in Fields(at) {
      MemberHeight(Fields(at), Unescape(parts[0]));
      WalkHeight(Fields(at)[Unescape(parts[0])], parts[1..]);
    }
  }

  // ---- acyclic references unfold within a known number of frames ----

  /** Every reference followed can lead through the whole document once. */
  ghost function Depth(doc: Json, s: Json, below: nat): nat {
    below * Height(doc) + Height(s)
  }

  lemma DepthFalls(doc: Json, s: Json, target: Json, rank: nat, below: nat)
    requires rank < below && Height(target) <= Height(doc)
    ensures Depth(doc, target, rank) <= Depth(doc, s, below)
  {
    hide Height;
    OneMore(rank, below, Height(doc));
  }

  lemma {:induction false} OneMore(few: nat, many: nat, h: nat)
    requires few < many
    ensures few * h + h <= many * h
  {
    if few + 1 < many {
      OneMore(few, many - 1, h);
    }
    assert (many - 1) * h + h == many * h;
  }

  /** With acyclic references every schema of a document unfolds, within a depth read off ranks and heights. */
  lemma {:induction false} AcyclicUnfolds(doc: Json, rank: map<string, nat>, s: Json, below: nat)
    requires Ranked(doc, rank, s, below)
    ensures Unfolds(doc, s, Depth(doc, s, below))
    decreases below, s
  {
    hide ResolveFrom, Resolve, Unfolds, Depth, Height;
    var ref := RefOf(s);
    if ref.Some? && Local(ref.value) && Target(doc, ref.value).Resolved? {
      var target := Target(doc, ref.value).value;
      RefAmongRefs(s);
      AcyclicUnfolds(doc, rank, target, rank[ref.value]);
      WalkHeight(doc, Text.Split(ref.value[2..], '/'));
      DepthFalls(doc, s, target, rank[ref.value], below);
      UnfoldsMonotone(doc, target, Depth(doc, target, rank[ref.value]), Depth(doc, s, below));
      OneHop(doc, s);
      VisitedIrrelevant(doc, rank, target, rank[ref.value], {ref.value}, {});
      ResolveStarts(doc, target);
      SameResolution(doc, s, target, Depth(doc, s, below));
    } else {
      StaysPut(doc, s);
      var properties := Get(Fields(s), "properties");
      forall k | k in Fields(properties)
        ensures Height(Fields(properties)[k]) < Height(s) && Ranked(doc, rank, Fields(properties)[k], below)
        ensures Unfolds(doc, Fields(properties)[k], Depth(doc, Fields(properties)[k], below))
      {
        Inside(doc, rank, s, "properties", below);
        Inside(doc, rank, properties, k, below);
        AcyclicUnfolds(doc, rank, Fields(properties)[k], below);
      }
      if "items" in Fields(s) {
        Inside(doc, rank, s, "items", below);
        AcyclicUnfolds(doc, rank, Fields(s)["items"], below);
      }
      UnfoldsInPlace(doc, s, below);
    }
  }

  /** A member is lower, and as acyclic. */
  lemma Inside(doc: Json, rank: map<string, nat>, j: Json, key: string, below: nat)
    requires Ranked(doc, rank, j, below) && key in Fields(j)
    ensures Ranked(doc, rank, Fields(j)[key], below)
    ensures Height(Fields(j)[key]) < Height(j)
  {
    hide Height;
    MemberRefs(Fields(j), key);
    MemberHeight(Fields(j), key);
  }

  lemma ResolveStarts(doc: Json, s: Json)
    ensures Resolve(doc, s) == ResolveFrom(doc, s, {})
    ensures s == Null ==> Resolve(doc, s) == Resolved(Null)
  {
  }

  lemma UnfoldsInPlace(doc: Json, s: Json, below: nat)
    requires Resolve(doc, s).Unresolved? || Resolve(doc, s).value == s
    requires forall k :: k in Properties(Fields(s)) ==>
               && Height(Properties(Fields(s))[k]) < Height(s)
               && Unfolds(doc, Properties(Fields(s))[k], Depth(doc, Properties(Fields(s))[k], below))
    requires "items" in Fields(s) ==>
               && Height(Fields(s)["items"]) < Height(s)
               && Unfolds(doc, Fields(s)["items"], Depth(doc, Fields(s)["items"], below))
    ensures Unfolds(doc, s, Depth(doc, s, below))
  {
    hide Resolve, Height;
    var n := Depth(doc, s, below) - 1;
    forall k | k in Properties(Fields(s)) ensures Unfolds(doc, Properties(Fields(s))[k], n) {
      UnfoldsMonotone(doc, Properties(Fields(s))[k], Depth(doc, Properties(Fields(s))[k], below), n);
    }
    if "items" in Fields(s) {
      UnfoldsMonotone(doc, Fields(s)["items"], Depth(doc, Fields(s)["items"], below), n);
    }
  }

  /** With acyclic references in the baseline there is a stack depth from which the comparison with any candidate
      ends without exhausting the stack, with the same outcome and the same verdict at every greater depth. */
  lemma AcyclicBaselineTerminates(bd: Json, cd: Json, b: Json, c: Json, direction: Direction, rank: map<string, nat>,
                                  below: nat, stack: nat)
    requires Ranked(bd, rank, b, below) && Depth(bd, b, below) <= stack
    ensures Settled(bd, cd, b, c, direction, Depth(bd, b, below), stack)
  {
    hide SchemaFate, SchemaClean, Unfolds, Ranked, Depth;
    var n := Depth(bd, b, below);
    AcyclicUnfolds(bd, rank, b, below);
    FiniteBaselineTerminates(bd, cd, b, c, n, n);
    StackIndependent(bd, cd, b, c, direction, n, stack);
  }

  ghost predicate Settled(bd: Json, cd: Json, b: Json, c: Json, direction: Direction, n: nat, stack: nat) {
    && StackOverflow !in SchemaFate(bd, cd, b, c, stack)
    && SchemaFate(bd, cd, b, c, stack) == SchemaFate(bd, cd, b, c, n)
    && (SchemaClean(bd, cd, b, c, direction, stack) <==> SchemaClean(bd, cd, b, c, direction, n))
  }
}
