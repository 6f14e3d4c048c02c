/** `_compare_schema`, `_compare_bounds` and `_compare_compositions` of scripts/openapi_compatibility.py. */
module SchemaComparison {
  import opened Json
  import opened Reference
  import opened SchemaRules
  import opened SchemaChanges

  datatype Outcome = Completed | Raised(error: Error)

  /** The list grew, by these changes and no others. */
  predicate Grown(before: seq<Change>, after: seq<Change>, found: set<Change>) {
    before <= after && Fresh(before, after) == found
  }

  function Fresh(before: seq<Change>, after: seq<Change>): set<Change> {
    set i | |before| <= i < |after| :: after[i]
  }

  lemma NothingGrown(changes: seq<Change>)
    ensures Grown(changes, changes, {})
  {
  }

  lemma OneGrown(changes: seq<Change>, change: Change)
    ensures Grown(changes, changes + [change], {change})
  {
    assert (changes + [change])[|changes|] == change;
  }

  lemma GrownTwice(a: seq<Change>, b: seq<Change>, c: seq<Change>, f: set<Change>, g: set<Change>)
    requires Grown(a, b, f) && Grown(b, c, g)
    ensures Grown(a, c, f + g)
  {
    assert forall i :: 0 <= i < |b| ==> c[i] == b[i];
    forall x | x in f ensures x in Fresh(a, c) {
      var i :| |a| <= i < |b| && b[i] == x;
      assert c[i] == x;
    }
    forall x | x in Fresh(a, c) ensures x in f + g {
      var i :| |a| <= i < |c| && c[i] == x;
      assert i < |b| ==> b[i] == x && x in Fresh(a, b);
    }
  }

  lemma GrownKeeps(a: seq<Change>, b: seq<Change>, f: set<Change>)
    requires Grown(a, b, f)
    ensures a <= b && (a == b <==> f == {})
  {
    if a != b {
      assert b[|a|] in Fresh(a, b);
    }
  }

  /** The list of changes that every comparison appends to. */
  class Report {
    var changes: seq<Change>

    constructor ()
      ensures changes == []
    {
      changes := [];
    }

    method Append(change: Change)
      modifies this
      ensures changes == old(changes) + [change]
      ensures Grown(old(changes), changes, {change})
    {
      OneGrown(changes, change);
      changes := changes + [change];
    }

    /** One change for every name, as the loops over sorted name sets append them. */
    method AppendEach(names: set<string>, location: Location, kind: Kind)
      modifies this
      ensures Grown(old(changes), changes, EachFound(names, location, kind))
    {
      hide Grown;
      var todo := names;
      NothingGrown(changes);
      EachNone(location, kind);
      assert names - todo == {};
      while todo != {}
        invariant todo <= names
        invariant Grown(old(changes), changes, EachFound(names - todo, location, kind))
      {
        var name :| name in todo;
        ghost var before, done := changes, names - todo;
        Append(Change(Under(location, name), kind));
        GrownTwice(old(changes), before, changes, EachFound(done, location, kind),
                   {Change(Under(location, name), kind)});
        EachOneMore(done, name, location, kind);
        todo := todo - {name};
        assert names - todo == done + {name};
      }
      assert names - todo == names;
    }
  }

  lemma EachNone(at: Location, kind: Kind)
    ensures EachFound({}, at, kind) == {}
  {
  }

  lemma EachOneMore(names: set<string>, name: string, at: Location, kind: Kind)
    ensures EachFound(names + {name}, at, kind) == EachFound(names, at, kind) + {Change(Under(at, name), kind)}
  {
  }

  /** How a comparison ends: an exception comes out exactly when the walk can meet one, and on completion the report
      has grown by exactly the changes found. */
  predicate Reported(before: seq<Change>, after: seq<Change>, r: Outcome, fate: set<Error>, found: set<Change>) {
    && before <= after
    && (r.Completed? <==> fate == {})
    && (r.Raised? ==> r.error in fate)
    && (r.Completed? ==> Grown(before, after, found))
  }

  method CompareSchema(bd: Json, cd: Json, b: Json, c: Json, location: Location, direction: Direction,
                       stack: nat, report: Report)
    returns (r: Outcome)
    modifies report
    ensures Reported(old(report.changes), report.changes, r,
                     SchemaFate(bd, cd, b, c, stack),
                     SchemaFound(bd, cd, b, c, location, direction, stack))
    decreases stack, 0
  {
    hide SchemaFate, SchemaFound, SchemaClean, ResolvedFound, ResolvedFate, ResolvedClean, Resolve, Grown, Fields;
    NothingGrown(report.changes);
    SchemaFoundCases(bd, cd, b, c, location, direction, stack);
    if stack == 0 {
      NoStack(bd, cd, b, c);
      return Raised(StackOverflow);
    }
    if b == Null {
      NothingDeclared(bd, cd, c, direction, stack);
      return Completed;
    }
    if c == Null {
      NothingLeft(bd, cd, b, direction, stack);
      report.Append(Change(location, SchemaRemoved));
      return Completed;
    }
    var resolvedBaseline := FollowReferences(bd, b);
    if resolvedBaseline.Unresolved? {
      DanglingReference(bd, cd, b, c, stack);
      return Raised(UnresolvedReference);
    }
    var resolvedCandidate := FollowReferences(cd, c);
    if resolvedCandidate.Unresolved? {
      DanglingReference(bd, cd, b, c, stack);
      return Raised(UnresolvedReference);
    }
    Descent(bd, cd, b, c, direction, stack);
    var baseline, candidate := Fields(resolvedBaseline.value), Fields(resolvedCandidate.value);
    r := CompareResolved(bd, cd, baseline, candidate, location, direction, stack - 1, report);
  }

  lemma SchemaFoundCases(bd: Json, cd: Json, b: Json, c: Json, at: Location, direction: Direction, stack: nat)
    ensures SchemaFound(bd, cd, b, c, at, direction, stack) ==
            if stack == 0 || b == Null then {}
            else if c == Null then {Change(at, SchemaRemoved)}
            else if !Descends(bd, cd, b, c) then {}
            else ResolvedFound(bd, cd, ResolvedFields(bd, b), ResolvedFields(cd, c), at, direction, stack - 1)
  {
  }

  /** The comparison of two resolved schemas, keyword by keyword. */
  method CompareResolved(bd: Json, cd: Json, baseline: Object, candidate: Object, location: Location,
                         direction: Direction, stack: nat, report: Report)
    returns (r: Outcome)
    modifies report
    ensures Reported(old(report.changes), report.changes, r,
                     ResolvedFate(bd, cd, baseline, candidate, stack),
                     ResolvedFound(bd, cd, baseline, candidate, location, direction, stack))
    decreases stack, 4
  {
    hide AssertionsFound, PartsFound, ResolvedFound, ResolvedFate, Grown;
    ghost var start := report.changes;
    CompareAssertions(baseline, candidate, location, direction, report);
    ghost var found, last := AssertionsFound(baseline, candidate, location, direction), report.changes;
    GrownKeeps(start, last, found);
    r := CompareParts(bd, cd, baseline, candidate, location, direction, stack, report);
    if r.Completed? {
      found, last := GrownFurther(start, last, report.changes, found,
                                  PartsFound(bd, cd, baseline, candidate, location, direction, stack));
      PartsAreFound(bd, cd, baseline, candidate, location, direction, stack);
    }
  }

  /** What is found from the properties on. */
  ghost function PartsFound(bd: Json, cd: Json, b: Object, c: Object, at: Location, direction: Direction, stack: nat)
    : set<Change>
  {
    PropertiesFound(bd, cd, b, c, at, direction, stack) + RestFound(bd, cd, b, c, at, direction, stack)
  }

  lemma PartsAreFound(bd: Json, cd: Json, b: Object, c: Object, at: Location, direction: Direction, stack: nat)
    ensures ResolvedFound(bd, cd, b, c, at, direction, stack) ==
            AssertionsFound(b, c, at, direction) + PartsFound(bd, cd, b, c, at, direction, stack)
  {
    hide AssertionsFound, BoundsFound, KeywordsFound, AdditionalFound, PropertiesFound, ItemsFound;
  }

  method CompareParts(bd: Json, cd: Json, baseline: Object, candidate: Object, location: Location,
                      direction: Direction, stack: nat, report: Report)
    returns (r: Outcome)
    modifies report
    ensures Reported(old(report.changes), report.changes, r,
                     ResolvedFate(bd, cd, baseline, candidate, stack),
                     PartsFound(bd, cd, baseline, candidate, location, direction, stack))
    decreases stack, 3
  {
    hide PropertiesFound, RestFound, PropertiesFate, ItemsFate, Grown;
    ghost var start := report.changes;
    r := CompareProperties(bd, cd, baseline, candidate, location, direction, stack, report);
    if r.Completed? {
      ghost var described := report.changes;
      r := CompareRest(bd, cd, baseline, candidate, location, direction, stack, report);
      if r.Completed? {
        GrownTwice(start, described, report.changes,
                   PropertiesFound(bd, cd, baseline, candidate, location, direction, stack),
                   RestFound(bd, cd, baseline, candidate, location, direction, stack));
      }
    }
  }

  /** What is found after the properties. */
  ghost function RestFound(bd: Json, cd: Json, b: Object, c: Object, at: Location, direction: Direction, stack: nat)
    : set<Change>
  {
    BoundsFound(b, c, at, direction) + KeywordsFound(b, c, at, COMPOSITIONS, CompositionChanged)
    + ItemsFound(bd, cd, b, c, at, direction, stack) + AdditionalFound(b, c, at, direction)
  }

  method CompareRest(bd: Json, cd: Json, baseline: Object, candidate: Object, location: Location,
                     direction: Direction, stack: nat, report: Report)
    returns (r: Outcome)
    modifies report
    ensures Reported(old(report.changes), report.changes, r,
                     ItemsFate(bd, cd, baseline, candidate, stack),
                     RestFound(bd, cd, baseline, candidate, location, direction, stack))
    decreases stack, 2
  {
    hide BoundsFound, KeywordsFound, AdditionalFound, ItemsFound, ItemsFate, Grown;
    ghost var start := report.changes;
    CompareBounds(baseline, candidate, location, direction, report);
    ghost var found, last := BoundsFound(baseline, candidate, location, direction), report.changes;
    CompareCompositions(baseline, candidate, location, report);
    found, last := GrownFurther(start, last, report.changes, found,
                                KeywordsFound(baseline, candidate, location, COMPOSITIONS, CompositionChanged));
    r := CompareItems(bd, cd, baseline, candidate, location, direction, stack, report);
    if r.Completed? {
      found, last := GrownFurther(start, last, report.changes, found,
                                  ItemsFound(bd, cd, baseline, candidate, location, direction, stack));
      CompareAdditional(baseline, candidate, location, direction, report);
      found, last := GrownFurther(start, last, report.changes, found,
                                  AdditionalFound(baseline, candidate, location, direction));
    }
  }

  /** What is found next comes on top of what was found so far. */
  lemma GrownFurther(a: seq<Change>, b: seq<Change>, c: seq<Change>, f: set<Change>, g: set<Change>)
    returns (found: set<Change>, last: seq<Change>)
    requires Grown(a, b, f) && Grown(b, c, g)
    ensures found == f + g && last == c && Grown(a, c, found) && a <= c
  {
    GrownTwice(a, b, c, f, g);
    found, last := f + g, c;
  }

  method CompareItems(bd: Json, cd: Json, baseline: Object, candidate: Object, location: Location,
                      direction: Direction, stack: nat, report: Report)
    returns (r: Outcome)
    modifies report
    ensures Reported(old(report.changes), report.changes, r,
                     ItemsFate(bd, cd, baseline, candidate, stack),
                     ItemsFound(bd, cd, baseline, candidate, location, direction, stack))
    decreases stack, 1
  {
    hide SchemaFate, SchemaFound, Grown;
    if "items" in baseline {
      r := CompareSchema(bd, cd, baseline["items"], Get(candidate, "items"), Under(location, "items"), direction,
                         stack, report);
    } else {
      NothingGrown(report.changes);
      r := Completed;
    }
  }

  method CompareAdditional(baseline: Object, candidate: Object, location: Location, direction: Direction,
                           report: Report)
    modifies report
    ensures Grown(old(report.changes), report.changes, AdditionalFound(baseline, candidate, location, direction))
  {
    hide Grown;
    NothingGrown(report.changes);
    if direction == Request && Additional(baseline) != Bool(false) && Additional(candidate) == Bool(false) {
      report.Append(Change(location, AdditionalForbidden));
    }
    if direction == Response && Additional(baseline) == Bool(false) && Additional(candidate) != Bool(false) {
      report.Append(Change(location, AdditionalAllowed));
    }
  }

  /** The keywords that concern the pair alone, up to `required`. */
  method CompareAssertions(baseline: Object, candidate: Object, location: Location, direction: Direction,
                           report: Report)
    modifies report
    ensures Grown(old(report.changes), report.changes, AssertionsFound(baseline, candidate, location, direction))
  {
    hide TypesFound, ConstFound, KeywordsFound, EnumFound, RequiredFound, Grown;
    ghost var start := report.changes;
    CompareTypes(baseline, candidate, location, direction, report);
    ghost var found, last := TypesFound(baseline, candidate, location, direction), report.changes;
    CompareConst(baseline, candidate, location, report);
    found, last := GrownFurther(start, last, report.changes, found, ConstFound(baseline, candidate, location));
    CompareKeywords(MEDIA_KEYWORDS, baseline, candidate, location, ValueChanged, report);
    found, last := GrownFurther(start, last, report.changes, found,
                                KeywordsFound(baseline, candidate, location, MEDIA_KEYWORDS, ValueChanged));
    CompareEnum(baseline, candidate, location, direction, report);
    found, last := GrownFurther(start, last, report.changes, found,
                                EnumFound(baseline, candidate, location, direction));
    CompareRequired(baseline, candidate, location, direction, report);
    found, last := GrownFurther(start, last, report.changes, found,
                                RequiredFound(baseline, candidate, location, direction));
  }

  method CompareTypes(baseline: Object, candidate: Object, location: Location, direction: Direction, report: Report)
    modifies report
    ensures Grown(old(report.changes), report.changes, TypesFound(baseline, candidate, location, direction))
  {
    hide Grown, Types;
    NothingGrown(report.changes);
    var was, now := Types(Get(baseline, "type")), Types(Get(candidate, "type"));
    if was != multiset{} && now != multiset{} && was != now {
      report.Append(Change(location, TypeChanged));
    } else if was == multiset{} && now != multiset{} && direction == Request {
      report.Append(Change(location, TypeAdded));
    } else if was != multiset{} && now == multiset{} && direction == Response {
      report.Append(Change(location, TypeRemoved));
    }
  }

  method CompareConst(baseline: Object, candidate: Object, location: Location, report: Report)
    modifies report
    ensures Grown(old(report.changes), report.changes, ConstFound(baseline, candidate, location))
  {
    hide Grown;
    NothingGrown(report.changes);
    if "const" in baseline && !PyEq(baseline["const"], Get(candidate, "const")) {
      report.Append(Change(location, ConstChanged));
    }
  }

  method CompareEnum(baseline: Object, candidate: Object, location: Location, direction: Direction, report: Report)
    modifies report
    ensures Grown(old(report.changes), report.changes, EnumFound(baseline, candidate, location, direction))
  {
    hide Grown;
    NothingGrown(report.changes);
    var was, now := Get(baseline, "enum"), Get(candidate, "enum");
    if was.Arr? && now.Arr? {
      var oldValues, newValues := (set x <- was.items), (set x <- now.items);
      Included(was.items, now.items);
      Included(now.items, was.items);
      if if direction == Request then !(oldValues <= newValues) else !(newValues <= oldValues) {
        report.Append(Change(location, EnumChanged));
      }
    } else if was.Arr? && now == Null && direction == Response {
      report.Append(Change(location, EnumRemoved));
    } else if was == Null && now.Arr? && direction == Request {
      report.Append(Change(location, EnumAdded));
    }
  }

  method CompareRequired(baseline: Object, candidate: Object, location: Location, direction: Direction,
                         report: Report)
    modifies report
    ensures Grown(old(report.changes), report.changes, RequiredFound(baseline, candidate, location, direction))
  {
    hide Grown, EachFound;
    var was, now := Required(baseline), Required(candidate);
    if direction == Request {
      report.AppendEach(now - was, Under(location, "required"), RequiredAdded);
      assert RequiredFound(baseline, candidate, location, direction)
          == EachFound(now - was, Under(location, "required"), RequiredAdded);
    } else {
      ghost var start := report.changes;
      report.AppendEach(was - now, Under(location, "required"), RequiredRemoved);
      ghost var removed := report.changes;
      report.AppendEach(now - was, Under(location, "required"), RequiredAdded);
      GrownTwice(start, removed, report.changes,
                 EachFound(was - now, Under(location, "required"), RequiredRemoved),
                 EachFound(now - was, Under(location, "required"), RequiredAdded));
      assert RequiredFound(baseline, candidate, location, direction)
          == EachFound(was - now, Under(location, "required"), RequiredRemoved)
             + EachFound(now - was, Under(location, "required"), RequiredAdded);
    }
  }

  /** What the properties looked at so far add up to. */
  ghost function PropertiesFoundIn(bd: Json, cd: Json, b: Object, c: Object, names: set<string>, at: Location,
                                   direction: Direction, stack: nat): set<Change>
  {
    set k, x | k in names && k in Properties(b) && x in PropertyFound(bd, cd, b, c, k, at, direction, stack) :: x
  }

  lemma OnePropertyMore(bd: Json, cd: Json, b: Object, c: Object, names: set<string>, name: string, at: Location,
                        direction: Direction, stack: nat)
    requires name in Properties(b)
    ensures PropertiesFoundIn(bd, cd, b, c, names + {name}, at, direction, stack) ==
            PropertiesFoundIn(bd, cd, b, c, names, at, direction, stack)
            + PropertyFound(bd, cd, b, c, name, at, direction, stack)
  {
    hide PropertyFound;
  }

  lemma AllProperties(bd: Json, cd: Json, b: Object, c: Object, at: Location, direction: Direction, stack: nat)
    ensures PropertiesFoundIn(bd, cd, b, c, {}, at, direction, stack) == {}
    ensures PropertiesFoundIn(bd, cd, b, c, Properties(b).Keys, at, direction, stack) ==
            PropertiesFound(bd, cd, b, c, at, direction, stack)
  {
    hide PropertyFound;
  }

  lemma PropertyFoundCases(bd: Json, cd: Json, b: Object, c: Object, name: string, at: Location, direction: Direction,
                           stack: nat)
    requires name in Properties(b)
    ensures var place := Under(Under(at, "properties"), name);
            PropertyFound(bd, cd, b, c, name, at, direction, stack) ==
            if name !in Properties(c) then {Change(place, PropertyRemoved)}
            else SchemaFound(bd, cd, Properties(b)[name], Properties(c)[name], place, direction, stack)
  {
    hide SchemaFound;
  }

  method CompareProperties(bd: Json, cd: Json, baseline: Object, candidate: Object, location: Location,
                           direction: Direction, stack: nat, report: Report)
    returns (r: Outcome)
    modifies report
    ensures Reported(old(report.changes), report.changes, r,
                     PropertiesFate(bd, cd, baseline, candidate, stack),
                     PropertiesFound(bd, cd, baseline, candidate, location, direction, stack))
    decreases stack, 1
  {
    hide SchemaFate, SchemaFound, PropertyFate, PropertyFound, PropertiesFate, PropertiesFound, PropertiesFoundIn,
      Grown, Properties, PropertyClean, PropertiesClean, SchemaClean, Under;
    var oldProperties, newProperties := Properties(baseline), Properties(candidate);
    var todo := oldProperties.Keys;
    ghost var start, done: set<string> := report.changes, {};
    NothingGrown(start);
    AllProperties(bd, cd, baseline, candidate, location, direction, stack);
    while todo != {}
      invariant todo <= oldProperties.Keys && done == oldProperties.Keys - todo
      invariant forall k :: k in SharedNames(baseline, candidate) && k !in todo ==>
                  PropertyFate(bd, cd, baseline, candidate, k, stack) == {}
      invariant Grown(start, report.changes,
                      PropertiesFoundIn(bd, cd, baseline, candidate, done, location, direction, stack))
    {
      var name :| name in todo;
      ghost var before := report.changes;
      GrownKeeps(start, before, PropertiesFoundIn(bd, cd, baseline, candidate, done, location, direction, stack));
      PropertyCases(bd, cd, baseline, candidate, name, direction, stack);
      PropertyFoundCases(bd, cd, baseline, candidate, name, location, direction, stack);
      var place := Under(Under(location, "properties"), name);
      if name !in newProperties {
        report.Append(Change(place, PropertyRemoved));
      } else {
        r := CompareSchema(bd, cd, oldProperties[name], newProperties[name], place, direction, stack, report);
        if r.Raised? {
          PropertyRaises(bd, cd, baseline, candidate, name, stack);
          return;
        }
      }
      GrownTwice(start, before, report.changes,
                 PropertiesFoundIn(bd, cd, baseline, candidate, done, location, direction, stack),
                 PropertyFound(bd, cd, baseline, candidate, name, location, direction, stack));
      OnePropertyMore(bd, cd, baseline, candidate, done, name, location, direction, stack);
      todo, done := todo - {name}, done + {name};
    }
    PropertiesCases(bd, cd, baseline, candidate, direction, stack);
    assert done == oldProperties.Keys;
    GrownKeeps(start, report.changes,
               PropertiesFoundIn(bd, cd, baseline, candidate, done, location, direction, stack));
    return Completed;
  }

  /** A loop over keywords whose values must be equal. */
  method CompareKeywords(keywords: seq<string>, baseline: Object, candidate: Object, location: Location,
                         kind: Kind, report: Report)
    modifies report
    ensures Grown(old(report.changes), report.changes, KeywordsFound(baseline, candidate, location, keywords, kind))
  {
    hide Grown, KeywordsFound, SameKeyword;
    ghost var start := report.changes;
    NothingGrown(start);
    KeywordsEnds(baseline, candidate, location, keywords, kind);
    for i := 0 to |keywords|
      invariant Grown(start, report.changes, KeywordsFound(baseline, candidate, location, keywords[..i], kind))
    {
      ghost var before := report.changes;
      KeywordMore(baseline, candidate, location, keywords, i, kind);
      if !SameKeyword(baseline, candidate, keywords[i]) {
        report.Append(Change(Under(location, keywords[i]), kind));
        GrownTwice(start, before, report.changes,
                   KeywordsFound(baseline, candidate, location, keywords[..i], kind),
                   {Change(Under(location, keywords[i]), kind)});
      } else {
        assert KeywordsFound(baseline, candidate, location, keywords[..i + 1], kind)
            == KeywordsFound(baseline, candidate, location, keywords[..i], kind);
      }
    }
  }

  lemma KeywordsEnds(b: Object, c: Object, at: Location, keywords: seq<string>, kind: Kind)
    ensures KeywordsFound(b, c, at, keywords[..0], kind) == {}
    ensures keywords[..|keywords|] == keywords
  {
  }

  lemma KeywordMore(b: Object, c: Object, at: Location, keywords: seq<string>, i: nat, kind: Kind)
    requires i < |keywords|
    ensures KeywordsFound(b, c, at, keywords[..i + 1], kind) ==
            KeywordsFound(b, c, at, keywords[..i], kind)
            + if SameKeyword(b, c, keywords[i]) then {} else {Change(Under(at, keywords[i]), kind)}
  {
    hide SameKeyword;
    assert keywords[..i + 1] == keywords[..i] + [keywords[i]];
  }

  method CompareCompositions(baseline: Object, candidate: Object, location: Location, report: Report)
    modifies report
    ensures Grown(old(report.changes), report.changes,
                  KeywordsFound(baseline, candidate, location, COMPOSITIONS, CompositionChanged))
  {
    CompareKeywords(COMPOSITIONS, baseline, candidate, location, CompositionChanged, report);
  }

  lemma BoundsEnds(b: Object, c: Object, at: Location, direction: Direction, keywords: seq<string>, lower: bool)
    ensures BoundsFoundFor(b, c, at, direction, keywords[..0], lower) == {}
    ensures keywords[..|keywords|] == keywords
  {
  }

  lemma BoundMore(b: Object, c: Object, at: Location, direction: Direction, keywords: seq<string>, i: nat,
                  lower: bool)
    requires i < |keywords|
    ensures BoundsFoundFor(b, c, at, direction, keywords[..i + 1], lower) ==
            BoundsFoundFor(b, c, at, direction, keywords[..i], lower)
            + BoundFoundAt(b, c, at, direction, keywords[i], lower)
  {
    hide BoundFoundAt;
    assert keywords[..i + 1] == keywords[..i] + [keywords[i]];
  }

  method CompareBounds(baseline: Object, candidate: Object, location: Location, direction: Direction, report: Report)
    modifies report
    ensures Grown(old(report.changes), report.changes, BoundsFound(baseline, candidate, location, direction))
  {
    hide Grown, BoundsFoundFor, SameKeyword;
    ghost var start := report.changes;
    CompareMinimums(baseline, candidate, location, direction, report);
    ghost var found, last := BoundsFoundFor(baseline, candidate, location, direction, MINIMUMS, true), report.changes;
    CompareMaximums(baseline, candidate, location, direction, report);
    found, last := GrownFurther(start, last, report.changes, found,
                                BoundsFoundFor(baseline, candidate, location, direction, MAXIMUMS, false));
    if !SameKeyword(baseline, candidate, "pattern") && ("pattern" in baseline || "pattern" in candidate) {
      report.Append(Change(Under(location, "pattern"), PatternChanged));
    } else {
      NothingGrown(report.changes);
      AbsentPattern(baseline, candidate);
    }
    found, last := GrownFurther(start, last, report.changes, found, PatternFound(baseline, candidate, location));
  }

  lemma AbsentPattern(b: Object, c: Object)
    ensures "pattern" !in b && "pattern" !in c ==> SameKeyword(b, c, "pattern")
  {
  }

  method CompareMinimums(baseline: Object, candidate: Object, location: Location, direction: Direction,
                         report: Report)
    modifies report
    ensures Grown(old(report.changes), report.changes,
                  BoundsFoundFor(baseline, candidate, location, direction, MINIMUMS, true))
  {
    hide Grown, BoundsFoundFor, BoundFoundAt;
    ghost var start := report.changes;
    NothingGrown(start);
    BoundsEnds(baseline, candidate, location, direction, MINIMUMS, true);
    for i := 0 to |MINIMUMS|
      invariant Grown(start, report.changes,
                      BoundsFoundFor(baseline, candidate, location, direction, MINIMUMS[..i], true))
    {
      ghost var before := report.changes;
      BoundMore(baseline, candidate, location, direction, MINIMUMS, i, true);
      CompareMinimum(baseline, candidate, location, direction, MINIMUMS[i], report);
      GrownTwice(start, before, report.changes,
                 BoundsFoundFor(baseline, candidate, location, direction, MINIMUMS[..i], true),
                 BoundFoundAt(baseline, candidate, location, direction, MINIMUMS[i], true));
    }
  }

  method CompareMinimum(baseline: Object, candidate: Object, location: Location, direction: Direction,
                        keyword: string, report: Report)
    modifies report
    ensures Grown(old(report.changes), report.changes,
                  BoundFoundAt(baseline, candidate, location, direction, keyword, true))
  {
    hide Grown;
    NothingGrown(report.changes);
    var was, now := Get(baseline, keyword), Get(candidate, keyword);
    if IsNumber(was) && IsNumber(now) {
      if (direction == Request && NumberOf(now) > NumberOf(was))
         || (direction == Response && NumberOf(now) < NumberOf(was)) {
        report.Append(Change(Under(location, keyword), BoundChanged));
      }
    } else if was == Null && IsNumber(now) && direction == Request {
      report.Append(Change(Under(location, keyword), BoundAdded));
    } else if IsNumber(was) && now == Null && direction == Response {
      report.Append(Change(Under(location, keyword), BoundRemoved));
    }
  }

  method CompareMaximums(baseline: Object, candidate: Object, location: Location, direction: Direction,
                         report: Report)
    modifies report
    ensures Grown(old(report.changes), report.changes,
                  BoundsFoundFor(baseline, candidate, location, direction, MAXIMUMS, false))
  {
    hide Grown, BoundsFoundFor, BoundFoundAt;
    ghost var start := report.changes;
    NothingGrown(start);
    BoundsEnds(baseline, candidate, location, direction, MAXIMUMS, false);
    for i := 0 to |MAXIMUMS|
      invariant Grown(start, report.changes,
                      BoundsFoundFor(baseline, candidate, location, direction, MAXIMUMS[..i], false))
    {
      ghost var before := report.changes;
      BoundMore(baseline, candidate, location, direction, MAXIMUMS, i, false);
      CompareMaximum(baseline, candidate, location, direction, MAXIMUMS[i], report);
      GrownTwice(start, before, report.changes,
                 BoundsFoundFor(baseline, candidate, location, direction, MAXIMUMS[..i], false),
                 BoundFoundAt(baseline, candidate, location, direction, MAXIMUMS[i], false));
    }
  }

  method CompareMaximum(baseline: Object, candidate: Object, location: Location, direction: Direction,
                        keyword: string, report: Report)
    modifies report
    ensures Grown(old(report.changes), report.changes,
                  BoundFoundAt(baseline, candidate, location, direction, keyword, false))
  {
    hide Grown;
    NothingGrown(report.changes);
    var was, now := Get(baseline, keyword), Get(candidate, keyword);
    if IsNumber(was) && IsNumber(now) {
      if (direction == Request && NumberOf(now) < NumberOf(was))
         || (direction == Response && NumberOf(now) > NumberOf(was)) {
        report.Append(Change(Under(location, keyword), BoundChanged));
      }
    } else if was == Null && IsNumber(now) && direction == Request {
      report.Append(Change(Under(location, keyword), BoundAdded));
    } else if IsNumber(was) && now == Null && direction == Response {
      report.Append(Change(Under(location, keyword), BoundRemoved));
    }
  }
}
