/** `find_breaking_changes` and the comparisons of operations, parameters, bodies, headers and contents. */
module DocumentComparison {
  import opened Json
  import opened Reference
  import opened SchemaRules
  import opened SchemaChanges
  import opened SchemaComparison
  import opened DocumentRules
  import opened DocumentChanges
  import opened Version

  // ---- one key more ----

  lemma OneMediaMore(bd: Json, cd: Json, was: Object, now: Object, names: set<string>, k: string, at: Location,
                     direction: Direction, stack: nat)
    requires k in was
    ensures MediasFound(bd, cd, was, now, names + {k}, at, direction, stack) ==
            MediasFound(bd, cd, was, now, names, at, direction, stack)
            + MediaFound(bd, cd, was, now, k, at, direction, stack)
  {
    hide MediaFound;
  }

  lemma OneHeaderMore(bd: Json, cd: Json, was: Object, now: Object, names: set<string>, k: string, at: Location,
                      stack: nat)
    requires k in was
    ensures HeadersFound(bd, cd, was, now, names + {k}, at, stack) ==
            HeadersFound(bd, cd, was, now, names, at, stack) + HeaderFound(bd, cd, was, now, k, at, stack)
  {
    hide HeaderFound;
  }

  lemma OneParameterMore(bd: Json, cd: Json, was: Parameters, now: Parameters, keys: set<ParameterKey>,
                         k: ParameterKey, at: Location, stack: nat)
    requires k in was
    ensures SharedFound(bd, cd, was, now, keys + {k}, at, stack) ==
            SharedFound(bd, cd, was, now, keys, at, stack) + ParameterFound(bd, cd, was, now, k, at, stack)
  {
    hide ParameterFound;
  }

  lemma OneAddedMore(was: Parameters, now: Parameters, keys: set<ParameterKey>, k: ParameterKey, at: Location)
    requires k in now
    ensures AddedFound(was, now, keys + {k}, at) ==
            AddedFound(was, now, keys, at)
            + if k !in was && IsRequired(now[k]) then {Change(ParameterPlace(at, k), ParameterAdded)} else {}
  {
    hide IsRequired, ParameterPlace;
  }

  lemma OneStatusMore(bd: Json, cd: Json, was: Object, now: Object, names: set<string>, k: string, at: Location,
                      stack: nat)
    requires k in was
    ensures ResponsesFound(bd, cd, was, now, names + {k}, at, stack) ==
            ResponsesFound(bd, cd, was, now, names, at, stack) + StatusFound(bd, cd, was, now, k, at, stack)
  {
    hide StatusFound;
  }

  lemma OneVerbMore(bd: Json, cd: Json, was: Object, now: Object, verbs: set<string>, v: string, at: Location,
                    stack: nat)
    requires v in was
    ensures VerbsFound(bd, cd, was, now, verbs + {v}, at, stack) ==
            VerbsFound(bd, cd, was, now, verbs, at, stack) + VerbFound(bd, cd, was, now, v, at, stack)
  {
    hide VerbFound;
  }

  lemma OnePathMore(bd: Json, cd: Json, names: set<string>, p: string, stack: nat)
    requires p in Paths(bd)
    ensures PathsFound(bd, cd, names + {p}, stack) == PathsFound(bd, cd, names, stack) + PathFound(bd, cd, p, stack)
  {
    hide PathFound, Paths;
  }

  lemma OneSchemeMore(was: Object, now: Object, names: set<string>, k: string)
    requires k in was
    ensures SchemesFound(was, now, names + {k}) == SchemesFound(was, now, names) + SchemeFound(was, now, k)
  {
    hide SchemeFound;
  }

  // ---- contents and headers ----

  method CompareContent(bd: Json, cd: Json, was: Json, now: Json, location: Location, direction: Direction,
                        stack: nat, report: Report)
    returns (r: Outcome)
    modifies report
    ensures Reported(old(report.changes), report.changes, r,
                     SlotsFate(bd, cd, MediaSchemas(was), MediaSchemas(now), stack),
                     ContentFound(bd, cd, was, now, location, direction, stack))
  {
    hide SchemaFate, SlotFate, SlotsFate, MediaFound, MediasFound, Grown;
    ghost var olds, news := MediaSchemas(was), MediaSchemas(now);
    var oldContent, newContent := Fields(was), Fields(now);
    var todo := oldContent.Keys;
    ghost var start, done: set<string> := report.changes, {};
    NothingGrown(start);
    NoMedia(bd, cd, oldContent, newContent, location, direction, stack);
    while todo != {}
      invariant todo <= oldContent.Keys && done == oldContent.Keys - todo
      invariant forall k :: k in olds && k in news && k !in todo ==> SlotFate(bd, cd, olds, news, k, stack) == {}
      invariant Grown(start, report.changes,
                      MediasFound(bd, cd, oldContent, newContent, done, location, direction, stack))
    {
      var mediaType :| mediaType in todo;
      ghost var before, found := report.changes,
                                 MediasFound(bd, cd, oldContent, newContent, done, location, direction, stack);
      GrownKeeps(start, before, found);
      r := CompareMedia(bd, cd, was, now, mediaType, location, direction, stack, report);
      if r.Raised? {
        SlotRaises(bd, cd, olds, news, mediaType, stack);
        return;
      }
      GrownTwice(start, before, report.changes, found,
                 MediaFound(bd, cd, oldContent, newContent, mediaType, location, direction, stack));
      OneMediaMore(bd, cd, oldContent, newContent, done, mediaType, location, direction, stack);
      todo, done := todo - {mediaType}, done + {mediaType};
    }
    SlotsCases(bd, cd, olds, news, direction, stack);
    assert done == oldContent.Keys;
    GrownKeeps(start, report.changes, MediasFound(bd, cd, oldContent, newContent, done, location, direction, stack));
    return Completed;
  }

  lemma NoMedia(bd: Json, cd: Json, was: Object, now: Object, at: Location, direction: Direction, stack: nat)
    ensures MediasFound(bd, cd, was, now, {}, at, direction, stack) == {}
  {
    hide MediaFound;
  }

  method CompareMedia(bd: Json, cd: Json, was: Json, now: Json, mediaType: string, location: Location,
                      direction: Direction, stack: nat, report: Report)
    returns (r: Outcome)
    requires mediaType in Fields(was)
    modifies report
    ensures Reported(old(report.changes), report.changes, r,
                     if mediaType in Fields(now) then
                       SlotFate(bd, cd, MediaSchemas(was), MediaSchemas(now), mediaType, stack)
                     else {},
                     MediaFound(bd, cd, Fields(was), Fields(now), mediaType, location, direction, stack))
  {
    hide SchemaFate, SlotFate, SchemaFound, Grown;
    SlotCases(bd, cd, MediaSchemas(was), MediaSchemas(now), mediaType, direction, stack);
    var place := Under(location, mediaType);
    if mediaType !in Fields(now) {
      report.Append(Change(place, MediaTypeRemoved));
      return Completed;
    }
    r := CompareSchema(bd, cd, Get(Fields(Fields(was)[mediaType]), "schema"),
                       Get(Fields(Fields(now)[mediaType]), "schema"), Under(place, "schema"), direction, stack, report);
  }

  method CompareResponseHeaders(bd: Json, cd: Json, was: Object, now: Object, location: Location, stack: nat,
                                report: Report)
    returns (r: Outcome)
    modifies report
    ensures Reported(old(report.changes), report.changes, r,
                     HeadersFate(bd, cd, was, now, stack),
                     HeadersFound(bd, cd, was, now, was.Keys, location, stack))
  {
    hide HeaderFate, HeadersFate, HeaderFound, HeadersFound, Grown;
    var todo := was.Keys;
    ghost var start, done: set<string> := report.changes, {};
    NothingGrown(start);
    NoHeader(bd, cd, was, now, location, stack);
    while todo != {}
      invariant todo <= was.Keys && done == was.Keys - todo
      invariant forall k :: k in was && k in now && k !in todo ==> HeaderFate(bd, cd, was, now, k, stack) == {}
      invariant Grown(start, report.changes, HeadersFound(bd, cd, was, now, done, location, stack))
    {
      var name :| name in todo;
      ghost var before, found := report.changes, HeadersFound(bd, cd, was, now, done, location, stack);
      GrownKeeps(start, before, found);
      r := CompareHeader(bd, cd, was, now, name, location, stack, report);
      if r.Raised? {
        return;
      }
      GrownTwice(start, before, report.changes, found, HeaderFound(bd, cd, was, now, name, location, stack));
      OneHeaderMore(bd, cd, was, now, done, name, location, stack);
      todo, done := todo - {name}, done + {name};
    }
    HeadersCases(bd, cd, was, now, stack);
    assert done == was.Keys;
    GrownKeeps(start, report.changes, HeadersFound(bd, cd, was, now, done, location, stack));
    return Completed;
  }

  lemma NoHeader(bd: Json, cd: Json, was: Object, now: Object, at: Location, stack: nat)
    ensures HeadersFound(bd, cd, was, now, {}, at, stack) == {}
  {
    hide HeaderFound;
  }

  method CompareHeader(bd: Json, cd: Json, was: Object, now: Object, name: string, location: Location, stack: nat,
                       report: Report)
    returns (r: Outcome)
    requires name in was
    modifies report
    ensures Reported(old(report.changes), report.changes, r,
                     if name in now then HeaderFate(bd, cd, was, now, name, stack) else {},
                     HeaderFound(bd, cd, was, now, name, location, stack))
    ensures r.Raised? ==> r.error in HeadersFate(bd, cd, was, now, stack)
  {
    hide SchemaFate, SchemaFound, Resolve, HeaderFate, HeadersFate, Grown;
    HeaderCases(bd, cd, was, now, name, stack);
    var place := Under(Under(location, "headers"), name);
    if name !in now {
      report.Append(Change(place, HeaderRemoved));
      return Completed;
    }
    var ok, b, c := FollowBoth(bd, cd, was[name], now[name]);
    if !ok {
      return Raised(UnresolvedReference);
    }
    r := CompareSchema(bd, cd, Get(b, "schema"), Get(c, "schema"), Under(place, "schema"), Response, stack, report);
  }

  // ---- parameters ----

  /** The dictionary of resolved parameters, in which later entries replace earlier ones. */
  method CollectParameters(doc: Json, list: seq<Json>) returns (ok: bool, parameters: map<ParameterKey, Object>)
    ensures ok <==> AllResolve(doc, list)
    ensures ok ==> parameters == ParameterMap(doc, list)
  {
    parameters := map[];
    for i := 0 to |list|
      invariant forall j :: 0 <= j < i ==> Resolve(doc, list[j]).Resolved?
      invariant parameters == ParameterMap(doc, list[..i])
    {
      var resolved := FollowReferences(doc, list[i]);
      if resolved.Unresolved? {
        return false, map[];
      }
      assert list[..i + 1][..i] == list[..i];
      parameters := parameters[KeyOf(list[i]) := Fields(resolved.value)];
    }
    assert list[..|list|] == list;
    return true, parameters;
  }

  method CompareParameters(bd: Json, cd: Json, was: seq<Json>, now: seq<Json>, location: Location, stack: nat,
                           report: Report)
    returns (r: Outcome)
    modifies report
    ensures Reported(old(report.changes), report.changes, r,
                     ParametersFate(bd, cd, was, now, stack), ParametersFound(bd, cd, was, now, location, stack))
  {
    hide SlotsFate, AllResolve, ParameterMap, SharedFound, AddedFound, Grown;
    var okOld, oldParameters := CollectParameters(bd, was);
    if !okOld {
      return Raised(UnresolvedReference);
    }
    var okNew, newParameters := CollectParameters(cd, now);
    if !okNew {
      return Raised(UnresolvedReference);
    }
    ghost var start := report.changes;
    r := CompareSharedParameters(bd, cd, oldParameters, newParameters, location, stack, report);
    if r.Completed? {
      ghost var shared := report.changes;
      CompareAddedParameters(oldParameters, newParameters, location, report);
      GrownTwice(start, shared, report.changes,
                 SharedFound(bd, cd, oldParameters, newParameters, oldParameters.Keys, location, stack),
                 AddedFound(oldParameters, newParameters, newParameters.Keys, location));
      GrownKeeps(start, report.changes, ParametersFound(bd, cd, was, now, location, stack));
    }
  }

  method CompareSharedParameters(bd: Json, cd: Json, was: Parameters, now: Parameters, location: Location, stack: nat,
                                 report: Report)
    returns (r: Outcome)
    modifies report
    ensures Reported(old(report.changes), report.changes, r,
                     SlotsFate(bd, cd, ParameterSchemas(was), ParameterSchemas(now), stack),
                     SharedFound(bd, cd, was, now, was.Keys, location, stack))
  {
    hide SlotFate, SlotsFate, ParameterFound, SharedFound, Grown;
    ghost var olds, news := ParameterSchemas(was), ParameterSchemas(now);
    var todo := was.Keys;
    ghost var start, done: set<ParameterKey> := report.changes, {};
    NothingGrown(start);
    NoParameter(bd, cd, was, now, location, stack);
    while todo != {}
      invariant todo <= was.Keys && done == was.Keys - todo
      invariant forall k :: k in olds && k in news && k !in todo ==> SlotFate(bd, cd, olds, news, k, stack) == {}
      invariant Grown(start, report.changes, SharedFound(bd, cd, was, now, done, location, stack))
    {
      var key :| key in todo;
      ghost var before, found := report.changes, SharedFound(bd, cd, was, now, done, location, stack);
      GrownKeeps(start, before, found);
      r := CompareParameter(bd, cd, was, now, key, location, stack, report);
      if r.Raised? {
        SlotRaises(bd, cd, olds, news, key, stack);
        return;
      }
      GrownTwice(start, before, report.changes, found, ParameterFound(bd, cd, was, now, key, location, stack));
      OneParameterMore(bd, cd, was, now, done, key, location, stack);
      todo, done := todo - {key}, done + {key};
    }
    SlotsCases(bd, cd, olds, news, Request, stack);
    assert done == was.Keys;
    GrownKeeps(start, report.changes, SharedFound(bd, cd, was, now, done, location, stack));
    return Completed;
  }

  lemma NoParameter(bd: Json, cd: Json, was: Parameters, now: Parameters, at: Location, stack: nat)
    ensures SharedFound(bd, cd, was, now, {}, at, stack) == {}
    ensures AddedFound(was, now, {}, at) == {}
  {
    hide ParameterFound;
  }

  /** What was optional may not become required. */
  method CompareRequirement(was: Object, now: Object, location: Location, kind: Kind, report: Report)
    modifies report
    ensures Grown(old(report.changes), report.changes, RequirementFound(was, now, location, kind))
  {
    hide Grown;
    NothingGrown(report.changes);
    if !IsRequired(was) && IsRequired(now) {
      report.Append(Change(location, kind));
    }
  }

  method CompareParameter(bd: Json, cd: Json, was: Parameters, now: Parameters, key: ParameterKey, location: Location,
                          stack: nat, report: Report)
    returns (r: Outcome)
    requires key in was
    modifies report
    ensures Reported(old(report.changes), report.changes, r,
                     if key in now then SlotFate(bd, cd, ParameterSchemas(was), ParameterSchemas(now), key, stack)
                     else {},
                     ParameterFound(bd, cd, was, now, key, location, stack))
  {
    hide SchemaFate, SchemaFound, SlotFate, RequirementFound, ParameterPlace, Grown;
    SlotCases(bd, cd, ParameterSchemas(was), ParameterSchemas(now), key, Request, stack);
    var place := ParameterPlace(location, key);
    if key !in now {
      report.Append(Change(place, ParameterRemoved));
      return Completed;
    }
    ghost var start := report.changes;
    CompareRequirement(was[key], now[key], place, ParameterRequired, report);
    ghost var weighed, found := report.changes, RequirementFound(was[key], now[key], place, ParameterRequired);
    GrownKeeps(start, weighed, found);
    r := CompareSchema(bd, cd, Get(was[key], "schema"), Get(now[key], "schema"), Under(place, "schema"), Request, stack,
                       report);
    if r.Completed? {
      GrownTwice(start, weighed, report.changes, found,
                 SchemaFound(bd, cd, Get(was[key], "schema"), Get(now[key], "schema"), Under(place, "schema"), Request,
                             stack));
    }
  }

  method CompareAddedParameters(was: Parameters, now: Parameters, location: Location, report: Report)
    modifies report
    ensures Grown(old(report.changes), report.changes, AddedFound(was, now, now.Keys, location))
  {
    hide IsRequired, ParameterPlace, AddedFound, Grown;
    var todo := now.Keys;
    ghost var start, done: set<ParameterKey> := report.changes, {};
    NothingGrown(start);
    NoParameter(Null, Null, was, now, location, 0);
    while todo != {}
      invariant todo <= now.Keys && done == now.Keys - todo
      invariant Grown(start, report.changes, AddedFound(was, now, done, location))
    {
      var key :| key in todo;
      ghost var before, found := report.changes, AddedFound(was, now, done, location);
      NothingGrown(before);
      OneAddedMore(was, now, done, key, location);
      if key !in was && IsRequired(now[key]) {
        report.Append(Change(ParameterPlace(location, key), ParameterAdded));
      }
      GrownTwice(start, before, report.changes, found,
                 if key !in was && IsRequired(now[key]) then {Change(ParameterPlace(location, key), ParameterAdded)}
                 else {});
      todo, done := todo - {key}, done + {key};
    }
    assert done == now.Keys;
  }

  // ---- bodies and responses ----

  method CompareRequestBody(bd: Json, cd: Json, was: Json, now: Json, location: Location, stack: nat, report: Report)
    returns (r: Outcome)
    modifies report
    ensures Reported(old(report.changes), report.changes, r,
                     BodyFate(bd, cd, was, now, stack), BodyFound(bd, cd, was, now, location, stack))
  {
    hide DeclaredBodyFate, DeclaredBodyFound, Resolve, IsRequired, Grown;
    NothingGrown(report.changes);
    r := Completed;
    var place := Under(location, "requestBody");
    if was != Null && now == Null {
      report.Append(Change(place, RequestBodyRemoved));
    } else if was == Null && now != Null {
      var newBody := FollowReferences(cd, now);
      if newBody.Unresolved? {
        return Raised(UnresolvedReference);
      }
      if IsRequired(Fields(newBody.value)) {
        report.Append(Change(place, RequestBodyAdded));
      }
    } else if was != Null && now != Null {
      r := CompareDeclaredBodies(bd, cd, was, now, place, stack, report);
    }
  }

  /** The mappings two references lead to, the baseline's followed first. */
  method FollowBoth(bd: Json, cd: Json, was: Json, now: Json) returns (ok: bool, b: Object, c: Object)
    ensures ok <==> Resolve(bd, was).Resolved? && Resolve(cd, now).Resolved?
    ensures ok ==> b == ResolvedFields(bd, was) && c == ResolvedFields(cd, now)
  {
    b, c := map[], map[];
    var oldValue := FollowReferences(bd, was);
    if oldValue.Unresolved? {
      return false, b, c;
    }
    var newValue := FollowReferences(cd, now);
    if newValue.Unresolved? {
      return false, b, c;
    }
    return true, Fields(oldValue.value), Fields(newValue.value);
  }

  method CompareDeclaredBodies(bd: Json, cd: Json, was: Json, now: Json, location: Location, stack: nat,
                               report: Report)
    returns (r: Outcome)
    modifies report
    ensures Reported(old(report.changes), report.changes, r,
                     DeclaredBodyFate(bd, cd, was, now, stack), DeclaredBodyFound(bd, cd, was, now, location, stack))
  {
    hide DeclaredBodyFate, DeclaredBodyFound, SlotsFate, Resolve, ResolvedFields, RequirementFound, MediaSchemas,
      ContentFound, Grown;
    DeclaredBodyCases(bd, cd, was, now, location, stack);
    var ok, b, c := FollowBoth(bd, cd, was, now);
    if !ok {
      return Raised(UnresolvedReference);
    }
    ghost var start := report.changes;
    CompareRequirement(b, c, location, RequestBodyRequired, report);
    ghost var weighed, found := report.changes, RequirementFound(b, c, location, RequestBodyRequired);
    GrownKeeps(start, weighed, found);
    r := CompareContent(bd, cd, Get(b, "content"), Get(c, "content"), Under(location, "content"), Request, stack,
                        report);
    if r.Completed? {
      GrownTwice(start, weighed, report.changes, found,
                 ContentFound(bd, cd, Get(b, "content"), Get(c, "content"), Under(location, "content"), Request,
                              stack));
    }
  }

  lemma DeclaredBodyCases(bd: Json, cd: Json, was: Json, now: Json, at: Location, stack: nat)
    ensures var b, c := ResolvedFields(bd, was), ResolvedFields(cd, now);
            && DeclaredBodyFound(bd, cd, was, now, at, stack) ==
               RequirementFound(b, c, at, RequestBodyRequired)
               + ContentFound(bd, cd, Get(b, "content"), Get(c, "content"), Under(at, "content"), Request, stack)
            && DeclaredBodyFate(bd, cd, was, now, stack) ==
               if Resolve(bd, was).Unresolved? || Resolve(cd, now).Unresolved? then {UnresolvedReference}
               else SlotsFate(bd, cd, MediaSchemas(Get(b, "content")), MediaSchemas(Get(c, "content")), stack)
  {
    hide SlotsFate, Resolve, ResolvedFields, RequirementFound, MediaSchemas, ContentFound;
  }

  method CompareResponse(bd: Json, cd: Json, was: Json, now: Json, location: Location, stack: nat, report: Report)
    returns (r: Outcome)
    modifies report
    ensures Reported(old(report.changes), report.changes, r,
                     ResponseFate(bd, cd, was, now, stack), ResponseFound(bd, cd, was, now, location, stack))
  {
    hide HeadersFate, HeadersFound, SlotsFate, ContentFound, Resolve, MediaSchemas, Grown;
    var ok, b, c := FollowBoth(bd, cd, was, now);
    if !ok {
      return Raised(UnresolvedReference);
    }
    ghost var start := report.changes;
    r := CompareResponseHeaders(bd, cd, Headers(b), Headers(c), location, stack, report);
    if r.Completed? {
      ghost var headed := report.changes;
      r := CompareContent(bd, cd, Get(b, "content"), Get(c, "content"), Under(location, "content"), Response, stack,
                          report);
      if r.Completed? {
        GrownTwice(start, headed, report.changes,
                   HeadersFound(bd, cd, Headers(b), Headers(c), Headers(b).Keys, location, stack),
                   ContentFound(bd, cd, Get(b, "content"), Get(c, "content"), Under(location, "content"), Response,
                                stack));
      }
    }
  }

  method CompareResponses(bd: Json, cd: Json, was: Object, now: Object, location: Location, stack: nat,
                          report: Report)
    returns (r: Outcome)
    modifies report
    ensures Reported(old(report.changes), report.changes, r,
                     ResponsesFate(bd, cd, was, now, stack),
                     ResponsesFound(bd, cd, was, now, was.Keys, location, stack))
  {
    hide ResponseFate, StatusFate, ResponsesFate, StatusFound, ResponsesFound, Grown;
    var todo := was.Keys;
    ghost var start, done: set<string> := report.changes, {};
    NothingGrown(start);
    NoStatus(bd, cd, was, now, location, stack);
    while todo != {}
      invariant todo <= was.Keys && done == was.Keys - todo
      invariant forall k :: k in was && k in now && k !in todo ==> StatusFate(bd, cd, was, now, k, stack) == {}
      invariant Grown(start, report.changes, ResponsesFound(bd, cd, was, now, done, location, stack))
    {
      var status :| status in todo;
      ghost var before, found := report.changes, ResponsesFound(bd, cd, was, now, done, location, stack);
      GrownKeeps(start, before, found);
      r := CompareStatus(bd, cd, was, now, status, location, stack, report);
      if r.Raised? {
        return;
      }
      GrownTwice(start, before, report.changes, found, StatusFound(bd, cd, was, now, status, location, stack));
      OneStatusMore(bd, cd, was, now, done, status, location, stack);
      todo, done := todo - {status}, done + {status};
    }
    ResponsesCases(bd, cd, was, now, stack);
    assert done == was.Keys;
    GrownKeeps(start, report.changes, ResponsesFound(bd, cd, was, now, done, location, stack));
    return Completed;
  }

  lemma NoStatus(bd: Json, cd: Json, was: Object, now: Object, at: Location, stack: nat)
    ensures ResponsesFound(bd, cd, was, now, {}, at, stack) == {}
  {
    hide StatusFound;
  }

  method CompareStatus(bd: Json, cd: Json, was: Object, now: Object, status: string, location: Location, stack: nat,
                       report: Report)
    returns (r: Outcome)
    requires status in was
    modifies report
    ensures Reported(old(report.changes), report.changes, r,
                     if status in now then StatusFate(bd, cd, was, now, status, stack) else {},
                     StatusFound(bd, cd, was, now, status, location, stack))
    ensures r.Raised? ==> r.error in ResponsesFate(bd, cd, was, now, stack)
  {
    hide ResponseFate, ResponseFound, StatusFate, ResponsesFate, Grown;
    StatusCases(bd, cd, was, now, status, stack);
    var place := Under(Under(location, "responses"), status);
    if status !in now {
      report.Append(Change(place, ResponseRemoved));
      return Completed;
    }
    r := CompareResponse(bd, cd, was[status], now[status], place, stack, report);
  }

  // ---- operations, paths, documents ----

  method CompareOperation(bd: Json, cd: Json, b: Operation, c: Operation, location: Location, stack: nat,
                          report: Report)
    returns (r: Outcome)
    modifies report
    ensures Reported(old(report.changes), report.changes, r,
                     OperationFate(bd, cd, b, c, stack), OperationFound(bd, cd, b, c, location, stack))
  {
    hide ParametersFate, ParametersFound, BodyFate, BodyFound, ResponsesFate, ResponsesFound, IdentityFound, Grown;
    ghost var start := report.changes;
    CompareIdentity(b.fields, c.fields, location, report);
    ghost var found, last := IdentityFound(b.fields, c.fields, location), report.changes;
    GrownKeeps(start, last, found);
    r := CompareParameters(bd, cd, b.Parameters(), c.Parameters(), location, stack, report);
    if r.Completed? {
      found, last := GrownFurther(start, last, report.changes, found,
                                  ParametersFound(bd, cd, b.Parameters(), c.Parameters(), location, stack));
      r := CompareRequestBody(bd, cd, b.Body(), c.Body(), location, stack, report);
      if r.Completed? {
        found, last := GrownFurther(start, last, report.changes, found,
                                    BodyFound(bd, cd, b.Body(), c.Body(), location, stack));
        r := CompareResponses(bd, cd, b.Responses(), c.Responses(), location, stack, report);
        if r.Completed? {
          found, last := GrownFurther(start, last, report.changes, found,
                                      ResponsesFound(bd, cd, b.Responses(), c.Responses(), b.Responses().Keys,
                                                     location, stack));
        }
      }
    }
  }

  method CompareIdentity(b: Object, c: Object, location: Location, report: Report)
    modifies report
    ensures Grown(old(report.changes), report.changes, IdentityFound(b, c, location))
  {
    hide SameKeyword, Grown;
    ghost var start := report.changes;
    NothingGrown(start);
    if !SameKeyword(b, c, "operationId") {
      report.Append(Change(Under(location, "operationId"), OperationIdChanged));
    }
    ghost var identified := report.changes;
    NothingGrown(identified);
    if !SameKeyword(b, c, "security") {
      report.Append(Change(Under(location, "security"), SecurityChanged));
    }
    GrownTwice(start, identified, report.changes,
               if SameKeyword(b, c, "operationId") then {}
               else {Change(Under(location, "operationId"), OperationIdChanged)},
               if SameKeyword(b, c, "security") then {} else {Change(Under(location, "security"), SecurityChanged)});
  }

  method ComparePathItem(bd: Json, cd: Json, was: Object, now: Object, location: Location, stack: nat,
                         report: Report)
    returns (r: Outcome)
    modifies report
    ensures Reported(old(report.changes), report.changes, r,
                     PathFate(bd, cd, was, now, stack), VerbsFound(bd, cd, was, now, Verbs(was), location, stack))
  {
    hide OperationFate, VerbFate, PathFate, VerbFound, VerbsFound, Verbs, Grown;
    var todo := Verbs(was);
    ghost var start, done: set<string> := report.changes, {};
    NothingGrown(start);
    NoVerb(bd, cd, was, now, location, stack);
    while todo != {}
      invariant todo <= Verbs(was) && done == Verbs(was) - todo
      invariant forall v :: v in Verbs(was) && v in now && v !in todo ==>
                  VerbFate(bd, cd, was, now, v, stack) == {}
      invariant Grown(start, report.changes, VerbsFound(bd, cd, was, now, done, location, stack))
    {
      var verb :| verb in todo;
      ghost var before, found := report.changes, VerbsFound(bd, cd, was, now, done, location, stack);
      GrownKeeps(start, before, found);
      r := CompareVerb(bd, cd, was, now, verb, location, stack, report);
      if r.Raised? {
        return;
      }
      GrownTwice(start, before, report.changes, found, VerbFound(bd, cd, was, now, verb, location, stack));
      OneVerbMore(bd, cd, was, now, done, verb, location, stack);
      todo, done := todo - {verb}, done + {verb};
    }
    PathCases(bd, cd, was, now, stack);
    assert done == Verbs(was);
    GrownKeeps(start, report.changes, VerbsFound(bd, cd, was, now, done, location, stack));
    return Completed;
  }

  lemma NoVerb(bd: Json, cd: Json, was: Object, now: Object, at: Location, stack: nat)
    ensures VerbsFound(bd, cd, was, now, {}, at, stack) == {}
  {
    hide VerbFound;
  }

  method CompareVerb(bd: Json, cd: Json, was: Object, now: Object, verb: string, location: Location, stack: nat,
                     report: Report)
    returns (r: Outcome)
    requires verb in Verbs(was)
    modifies report
    ensures Reported(old(report.changes), report.changes, r,
                     if verb in now then VerbFate(bd, cd, was, now, verb, stack) else {},
                     VerbFound(bd, cd, was, now, verb, location, stack))
    ensures r.Raised? ==> r.error in PathFate(bd, cd, was, now, stack)
  {
    hide OperationFate, OperationFound, VerbFate, PathFate, Verbs, Grown;
    VerbCases(bd, cd, was, now, verb, stack);
    if verb !in now {
      report.Append(Change(Under(location, verb), OperationRemoved));
      return Completed;
    }
    r := CompareOperation(bd, cd, OperationOf(was, verb), OperationOf(now, verb), Under(location, verb), stack,
                          report);
  }

  method ComparePaths(bd: Json, cd: Json, stack: nat, report: Report)
    returns (r: Outcome)
    modifies report
    ensures Reported(old(report.changes), report.changes, r,
                     PathsFate(bd, cd, stack), PathsFound(bd, cd, Paths(bd).Keys, stack))
  {
    hide PathFate, ItemFate, PathsFate, PathFound, PathsFound, Paths, Grown;
    var todo := Paths(bd).Keys;
    ghost var start, done: set<string> := report.changes, {};
    NothingGrown(start);
    NoPath(bd, cd, stack);
    while todo != {}
      invariant todo <= Paths(bd).Keys && done == Paths(bd).Keys - todo
      invariant forall p :: p in Paths(bd) && p in Paths(cd) && p !in todo ==> ItemFate(bd, cd, p, stack) == {}
      invariant Grown(start, report.changes, PathsFound(bd, cd, done, stack))
    {
      var path :| path in todo;
      ghost var before, found := report.changes, PathsFound(bd, cd, done, stack);
      GrownKeeps(start, before, found);
      r := ComparePath(bd, cd, path, stack, report);
      if r.Raised? {
        return;
      }
      GrownTwice(start, before, report.changes, found, PathFound(bd, cd, path, stack));
      OnePathMore(bd, cd, done, path, stack);
      todo, done := todo - {path}, done + {path};
    }
    PathsCases(bd, cd, stack);
    assert done == Paths(bd).Keys;
    GrownKeeps(start, report.changes, PathsFound(bd, cd, done, stack));
    return Completed;
  }

  lemma NoPath(bd: Json, cd: Json, stack: nat)
    ensures PathsFound(bd, cd, {}, stack) == {}
  {
    hide PathFound, Paths;
  }

  method ComparePath(bd: Json, cd: Json, path: string, stack: nat, report: Report)
    returns (r: Outcome)
    requires path in Paths(bd)
    modifies report
    ensures Reported(old(report.changes), report.changes, r,
                     if path in Paths(cd) then ItemFate(bd, cd, path, stack) else {}, PathFound(bd, cd, path, stack))
    ensures r.Raised? ==> r.error in PathsFate(bd, cd, stack)
  {
    hide PathFate, ItemFate, PathsFate, VerbsFound, Paths, Verbs, Grown;
    ItemCases(bd, cd, path, stack);
    if path !in Paths(cd) {
      report.Append(Change(PathPlace(path), PathRemoved));
      return Completed;
    }
    r := ComparePathItem(bd, cd, PathItem(bd, path), PathItem(cd, path), PathPlace(path), stack, report);
  }

  method CompareSecuritySchemes(bd: Json, cd: Json, report: Report)
    modifies report
    ensures Grown(old(report.changes), report.changes, SecurityFound(bd, cd))
  {
    hide PyEq, SchemesFound, Grown;
    var was, now := SecuritySchemes(bd), SecuritySchemes(cd);
    var todo := was.Keys;
    ghost var start, done: set<string> := report.changes, {};
    NothingGrown(start);
    NoScheme(was, now);
    while todo != {}
      invariant todo <= was.Keys && done == was.Keys - todo
      invariant Grown(start, report.changes, SchemesFound(was, now, done))
    {
      var name :| name in todo;
      ghost var before, found := report.changes, SchemesFound(was, now, done);
      NothingGrown(before);
      var place := [Str("components"), Str("securitySchemes"), Str(name)];
      if name !in now {
        report.Append(Change(place, SecuritySchemeRemoved));
      } else if !PyEq(was[name], now[name]) {
        report.Append(Change(place, SecuritySchemeChanged));
      }
      GrownTwice(start, before, report.changes, found, SchemeFound(was, now, name));
      OneSchemeMore(was, now, done, name);
      todo, done := todo - {name}, done + {name};
    }
    assert done == was.Keys;
  }

  lemma NoScheme(was: Object, now: Object)
    ensures SchemesFound(was, now, {}) == {}
  {
  }

  /** The whole check: exactly the changes found, or the exception met. */
  method FindBreakingChanges(bd: Json, cd: Json, stack: nat) returns (r: Outcome, changes: seq<Change>)
    ensures r.Completed? <==> DocumentFate(bd, cd, stack) == {}
    ensures r.Raised? ==> r.error in DocumentFate(bd, cd, stack)
    ensures r.Completed? ==> (set x <- changes) == DocumentFound(bd, cd, stack)
    ensures r.Completed? ==> (changes == [] <==> DocumentClean(bd, cd, stack))
    ensures MajorVersion(cd) > MajorVersion(bd) ==> r.Completed? && changes == []
  {
    hide PathsFate, PathsFound, SecurityFound, CodesFound, DocumentClean, Grown;
    CleanDocumentsFindNothing(bd, cd, stack);
    if MajorVersion(cd) > MajorVersion(bd) {
      return Completed, [];
    }
    var report := new Report();
    CompareProblemCodes(bd, cd, report);
    ghost var found, last := CodesFound(bd, cd), report.changes;
    CompareSecuritySchemes(bd, cd, report);
    found, last := GrownFurther([], last, report.changes, found, SecurityFound(bd, cd));
    r := ComparePaths(bd, cd, stack, report);
    changes := report.changes;
    if r.Completed? {
      found, last := GrownFurther([], last, changes, found, PathsFound(bd, cd, Paths(bd).Keys, stack));
      GrownFromNothing(changes, DocumentFound(bd, cd, stack));
    }
  }

  lemma GrownFromNothing(changes: seq<Change>, found: set<Change>)
    requires Grown([], changes, found)
    ensures (set x <- changes) == found && (changes == [] <==> found == {})
  {
    GrownKeeps([], changes, found);
    forall x | x in changes ensures x in Fresh([], changes) {
      var i :| 0 <= i < |changes| && changes[i] == x;
    }
  }

  method CompareProblemCodes(bd: Json, cd: Json, report: Report)
    modifies report
    ensures Grown(old(report.changes), report.changes, CodesFound(bd, cd))
  {
    hide Grown, ProblemCodes, EachFound;
    report.AppendEach(ProblemCodes(bd) - ProblemCodes(cd), [Str("x-simula-stable-problem-codes")], ProblemCodeRemoved);
  }
}
