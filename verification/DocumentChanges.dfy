/** The changes that `find_breaking_changes` finds between two documents: where they are and what they are. */
module DocumentChanges {
  import opened Json
  import opened Reference
  import opened SchemaRules
  import opened SchemaChanges
  import opened DocumentRules
  import opened Version

  // ---- media types and headers ----

  function MediaFound(bd: Json, cd: Json, was: Object, now: Object, k: string, at: Location, direction: Direction,
                      stack: nat): set<Change>
    requires k in was
  {
    if k !in now then {Change(Under(at, k), MediaTypeRemoved)}
    else SchemaFound(bd, cd, Get(Fields(was[k]), "schema"), Get(Fields(now[k]), "schema"),
                     Under(Under(at, k), "schema"), direction, stack)
  }

  function MediasFound(bd: Json, cd: Json, was: Object, now: Object, names: set<string>, at: Location,
                       direction: Direction, stack: nat): set<Change>
  {
    set k, x | k in names && k in was && x in MediaFound(bd, cd, was, now, k, at, direction, stack) :: x
  }

  function ContentFound(bd: Json, cd: Json, was: Json, now: Json, at: Location, direction: Direction, stack: nat)
    : set<Change>
  {
    MediasFound(bd, cd, Fields(was), Fields(now), Fields(was).Keys, at, direction, stack)
  }

  function HeaderFound(bd: Json, cd: Json, was: Object, now: Object, k: string, at: Location, stack: nat): set<Change>
    requires k in was
  {
    var place := Under(Under(at, "headers"), k);
    if k !in now then {Change(place, HeaderRemoved)}
    else SchemaFound(bd, cd, HeaderSchema(bd, was[k]), HeaderSchema(cd, now[k]), Under(place, "schema"), Response,
                     stack)
  }

  function HeadersFound(bd: Json, cd: Json, was: Object, now: Object, names: set<string>, at: Location, stack: nat)
    : set<Change>
  {
    set k, x | k in names && k in was && x in HeaderFound(bd, cd, was, now, k, at, stack) :: x
  }

  // ---- parameters ----

  type Parameters = map<ParameterKey, Object>

  function ParameterPlace(at: Location, key: ParameterKey): Location {
    at + [Str("parameters"), key.0, key.1]
  }

  function RequirementFound(was: Object, now: Object, at: Location, kind: Kind): set<Change> {
    if !IsRequired(was) && IsRequired(now) then {Change(at, kind)} else {}
  }

  function ParameterFound(bd: Json, cd: Json, was: Parameters, now: Parameters, k: ParameterKey, at: Location,
                          stack: nat): set<Change>
    requires k in was
  {
    var place := ParameterPlace(at, k);
    if k !in now then {Change(place, ParameterRemoved)}
    else
      RequirementFound(was[k], now[k], place, ParameterRequired)
      + SchemaFound(bd, cd, Get(was[k], "schema"), Get(now[k], "schema"), Under(place, "schema"), Request, stack)
  }

  function SharedFound(bd: Json, cd: Json, was: Parameters, now: Parameters, keys: set<ParameterKey>, at: Location,
                       stack: nat): set<Change>
  {
    set k, x | k in keys && k in was && x in ParameterFound(bd, cd, was, now, k, at, stack) :: x
  }

  function AddedFound(was: Parameters, now: Parameters, keys: set<ParameterKey>, at: Location): set<Change> {
    set k | k in keys && k in now && k !in was && IsRequired(now[k]) :: Change(ParameterPlace(at, k), ParameterAdded)
  }

  function ParametersFound(bd: Json, cd: Json, was: seq<Json>, now: seq<Json>, at: Location, stack: nat): set<Change> {
    var olds, news := ParameterMap(bd, was), ParameterMap(cd, now);
    SharedFound(bd, cd, olds, news, olds.Keys, at, stack) + AddedFound(olds, news, news.Keys, at)
  }

  // ---- bodies and responses ----

  function BodyFound(bd: Json, cd: Json, was: Json, now: Json, at: Location, stack: nat): set<Change> {
    var place := Under(at, "requestBody");
    if was == Null then
      if now != Null && IsRequired(ResolvedFields(cd, now)) then {Change(place, RequestBodyAdded)} else {}
    else if now == Null then {Change(place, RequestBodyRemoved)}
    else DeclaredBodyFound(bd, cd, was, now, place, stack)
  }

  function DeclaredBodyFound(bd: Json, cd: Json, was: Json, now: Json, at: Location, stack: nat): set<Change> {
    var b, c := ResolvedFields(bd, was), ResolvedFields(cd, now);
    RequirementFound(b, c, at, RequestBodyRequired)
    + ContentFound(bd, cd, Get(b, "content"), Get(c, "content"), Under(at, "content"), Request, stack)
  }

  function ResponseFound(bd: Json, cd: Json, was: Json, now: Json, at: Location, stack: nat): set<Change> {
    var b, c := ResolvedFields(bd, was), ResolvedFields(cd, now);
    HeadersFound(bd, cd, Headers(b), Headers(c), Headers(b).Keys, at, stack)
    + ContentFound(bd, cd, Get(b, "content"), Get(c, "content"), Under(at, "content"), Response, stack)
  }

  function StatusFound(bd: Json, cd: Json, was: Object, now: Object, k: string, at: Location, stack: nat): set<Change>
    requires k in was
  {
    var place := Under(Under(at, "responses"), k);
    if k !in now then {Change(place, ResponseRemoved)} else ResponseFound(bd, cd, was[k], now[k], place, stack)
  }

  function ResponsesFound(bd: Json, cd: Json, was: Object, now: Object, names: set<string>, at: Location, stack: nat)
    : set<Change>
  {
    set k, x | k in names && k in was && x in StatusFound(bd, cd, was, now, k, at, stack) :: x
  }

  // ---- operations, paths, documents ----

  function IdentityFound(b: Object, c: Object, at: Location): set<Change> {
    (if SameKeyword(b, c, "operationId") then {} else {Change(Under(at, "operationId"), OperationIdChanged)})
    + if SameKeyword(b, c, "security") then {} else {Change(Under(at, "security"), SecurityChanged)}
  }

  function OperationFound(bd: Json, cd: Json, b: Operation, c: Operation, at: Location, stack: nat): set<Change> {
    IdentityFound(b.fields, c.fields, at)
    + ParametersFound(bd, cd, b.Parameters(), c.Parameters(), at, stack)
    + BodyFound(bd, cd, b.Body(), c.Body(), at, stack)
    + ResponsesFound(bd, cd, b.Responses(), c.Responses(), b.Responses().Keys, at, stack)
  }

  function VerbFound(bd: Json, cd: Json, was: Object, now: Object, v: string, at: Location, stack: nat): set<Change>
    requires v in was
  {
    if v !in now then {Change(Under(at, v), OperationRemoved)}
    else OperationFound(bd, cd, OperationOf(was, v), OperationOf(now, v), Under(at, v), stack)
  }

  function VerbsFound(bd: Json, cd: Json, was: Object, now: Object, verbs: set<string>, at: Location, stack: nat)
    : set<Change>
  {
    set v, x | v in verbs && v in was && x in VerbFound(bd, cd, was, now, v, at, stack) :: x
  }

  function PathPlace(p: string): Location {
    [Str("paths"), Str(p)]
  }

  function PathFound(bd: Json, cd: Json, p: string, stack: nat): set<Change>
    requires p in Paths(bd)
  {
    if p !in Paths(cd) then {Change(PathPlace(p), PathRemoved)}
    else
      VerbsFound(bd, cd, PathItem(bd, p), PathItem(cd, p), Verbs(PathItem(bd, p)), PathPlace(p), stack)
  }

  function PathsFound(bd: Json, cd: Json, names: set<string>, stack: nat): set<Change> {
    set p, x | p in names && p in Paths(bd) && x in PathFound(bd, cd, p, stack) :: x
  }

  function CodesFound(bd: Json, cd: Json): set<Change> {
    EachFound(ProblemCodes(bd) - ProblemCodes(cd), [Str("x-simula-stable-problem-codes")], ProblemCodeRemoved)
  }

  function SchemeFound(was: Object, now: Object, k: string): set<Change>
    requires k in was
  {
    var place := [Str("components"), Str("securitySchemes"), Str(k)];
    if k !in now then {Change(place, SecuritySchemeRemoved)}
    else if PyEq(was[k], now[k]) then {}
    else {Change(place, SecuritySchemeChanged)}
  }

  function SchemesFound(was: Object, now: Object, names: set<string>): set<Change> {
    set k, x | k in names && k in was && x in SchemeFound(was, now, k) :: x
  }

  function SecurityFound(bd: Json, cd: Json): set<Change> {
    SchemesFound(SecuritySchemes(bd), SecuritySchemes(cd), SecuritySchemes(bd).Keys)
  }

  function DocumentFound(bd: Json, cd: Json, stack: nat): set<Change> {
    if MajorVersion(cd) > MajorVersion(bd) then {}
    else CodesFound(bd, cd) + SecurityFound(bd, cd) + PathsFound(bd, cd, Paths(bd).Keys, stack)
  }

  // ---- nothing is found exactly between clean documents ----

  lemma ContentEmpty(bd: Json, cd: Json, was: Json, now: Json, at: Location, direction: Direction, stack: nat)
    ensures ContentFound(bd, cd, was, now, at, direction, stack) == {} <==>
              SlotsClean(bd, cd, MediaSchemas(was), MediaSchemas(now), direction, stack)
  {
    hide MediaFound, SlotClean;
    var olds, news := Fields(was), Fields(now);
    forall k | k in olds
      ensures MediaFound(bd, cd, olds, news, k, at, direction, stack) == {} <==>
                SlotClean(bd, cd, MediaSchemas(was), MediaSchemas(now), k, direction, stack)
      ensures MediaFound(bd, cd, olds, news, k, at, direction, stack) <=
              ContentFound(bd, cd, was, now, at, direction, stack)
    {
      MediaEmpty(bd, cd, was, now, k, at, direction, stack);
    }
  }

  lemma MediaEmpty(bd: Json, cd: Json, was: Json, now: Json, k: string, at: Location, direction: Direction, stack: nat)
    requires k in Fields(was)
    ensures MediaFound(bd, cd, Fields(was), Fields(now), k, at, direction, stack) == {} <==>
              SlotClean(bd, cd, MediaSchemas(was), MediaSchemas(now), k, direction, stack)
  {
    hide SchemaFound, SchemaClean;
    if k in Fields(now) {
      CleanFindsNothing(bd, cd, MediaSchemas(was)[k], MediaSchemas(now)[k], Under(Under(at, k), "schema"), direction,
                        stack);
    }
  }

  lemma HeadersEmpty(bd: Json, cd: Json, was: Object, now: Object, at: Location, stack: nat)
    ensures HeadersFound(bd, cd, was, now, was.Keys, at, stack) == {} <==> HeadersClean(bd, cd, was, now, stack)
  {
    hide HeaderFound, HeaderClean;
    forall k | k in was
      ensures HeaderFound(bd, cd, was, now, k, at, stack) == {} <==> HeaderClean(bd, cd, was, now, k, stack)
      ensures HeaderFound(bd, cd, was, now, k, at, stack) <= HeadersFound(bd, cd, was, now, was.Keys, at, stack)
    {
      HeaderEmpty(bd, cd, was, now, k, at, stack);
    }
  }

  lemma HeaderEmpty(bd: Json, cd: Json, was: Object, now: Object, k: string, at: Location, stack: nat)
    requires k in was
    ensures HeaderFound(bd, cd, was, now, k, at, stack) == {} <==> HeaderClean(bd, cd, was, now, k, stack)
  {
    hide SchemaFound, SchemaClean, HeaderSchema;
    if k in now {
      CleanFindsNothing(bd, cd, HeaderSchema(bd, was[k]), HeaderSchema(cd, now[k]),
                        Under(Under(Under(at, "headers"), k), "schema"), Response, stack);
    }
  }

  ghost predicate ParameterClean(bd: Json, cd: Json, was: Parameters, now: Parameters, k: ParameterKey, stack: nat)
    requires k in was
  {
    && SlotClean(bd, cd, ParameterSchemas(was), ParameterSchemas(now), k, Request, stack)
    && (k in now && IsRequired(now[k]) ==> IsRequired(was[k]))
  }

  lemma ParameterEmpty(bd: Json, cd: Json, was: Parameters, now: Parameters, k: ParameterKey, at: Location, stack: nat)
    requires k in was
    ensures ParameterFound(bd, cd, was, now, k, at, stack) == {} <==> ParameterClean(bd, cd, was, now, k, stack)
  {
    hide SchemaFound, SchemaClean, IsRequired, ParameterPlace;
    if k in now {
      CleanFindsNothing(bd, cd, Get(was[k], "schema"), Get(now[k], "schema"), Under(ParameterPlace(at, k), "schema"),
                        Request, stack);
    }
  }

  lemma SharedEmpty(bd: Json, cd: Json, was: Parameters, now: Parameters, at: Location, stack: nat)
    ensures SharedFound(bd, cd, was, now, was.Keys, at, stack) == {} <==>
              forall k :: k in was ==> ParameterClean(bd, cd, was, now, k, stack)
  {
    hide ParameterFound, ParameterClean;
    forall k | k in was
      ensures ParameterFound(bd, cd, was, now, k, at, stack) == {} <==> ParameterClean(bd, cd, was, now, k, stack)
      ensures ParameterFound(bd, cd, was, now, k, at, stack) <= SharedFound(bd, cd, was, now, was.Keys, at, stack)
    {
      ParameterEmpty(bd, cd, was, now, k, at, stack);
    }
  }

  lemma ParametersCleanly(bd: Json, cd: Json, was: Parameters, now: Parameters, stack: nat)
    ensures (forall k :: k in was ==> ParameterClean(bd, cd, was, now, k, stack)) <==>
              && SlotsClean(bd, cd, ParameterSchemas(was), ParameterSchemas(now), Request, stack)
              && forall k :: k in was && k in now && IsRequired(now[k]) ==> IsRequired(was[k])
  {
    hide SlotClean, IsRequired;
  }

  lemma AddedEmpty(was: Parameters, now: Parameters, at: Location)
    ensures AddedFound(was, now, now.Keys, at) == {} <==> forall k :: k in now && k !in was ==> !IsRequired(now[k])
  {
    hide IsRequired;
    forall k | k in now && k !in was && IsRequired(now[k])
      ensures Change(ParameterPlace(at, k), ParameterAdded) in AddedFound(was, now, now.Keys, at)
    {
    }
  }

  lemma ParametersEmpty(bd: Json, cd: Json, was: seq<Json>, now: seq<Json>, at: Location, stack: nat)
    ensures ParametersFound(bd, cd, was, now, at, stack) == {} <==> ParametersClean(bd, cd, was, now, stack)
  {
    hide SharedFound, AddedFound, SlotsClean, ParameterMap, IsRequired, ParameterClean;
    SharedEmpty(bd, cd, ParameterMap(bd, was), ParameterMap(cd, now), at, stack);
    ParametersCleanly(bd, cd, ParameterMap(bd, was), ParameterMap(cd, now), stack);
    AddedEmpty(ParameterMap(bd, was), ParameterMap(cd, now), at);
  }

  lemma BodyEmpty(bd: Json, cd: Json, was: Json, now: Json, at: Location, stack: nat)
    ensures BodyFound(bd, cd, was, now, at, stack) == {} <==> BodyClean(bd, cd, was, now, stack)
  {
    hide DeclaredBodyFound, DeclaredBodyClean, Resolve, IsRequired;
    DeclaredBodyEmpty(bd, cd, was, now, Under(at, "requestBody"), stack);
  }

  lemma DeclaredBodyEmpty(bd: Json, cd: Json, was: Json, now: Json, at: Location, stack: nat)
    ensures DeclaredBodyFound(bd, cd, was, now, at, stack) == {} <==> DeclaredBodyClean(bd, cd, was, now, stack)
  {
    hide ContentFound, SlotsClean, Resolve, IsRequired, MediaSchemas;
    ContentEmpty(bd, cd, Get(ResolvedFields(bd, was), "content"), Get(ResolvedFields(cd, now), "content"),
                 Under(at, "content"), Request, stack);
  }

  lemma ResponseEmpty(bd: Json, cd: Json, was: Json, now: Json, at: Location, stack: nat)
    ensures ResponseFound(bd, cd, was, now, at, stack) == {} <==> ResponseClean(bd, cd, was, now, stack)
  {
    hide ContentFound, SlotsClean, HeadersFound, HeadersClean, Resolve, MediaSchemas, Headers;
    var b, c := ResolvedFields(bd, was), ResolvedFields(cd, now);
    HeadersEmpty(bd, cd, Headers(b), Headers(c), at, stack);
    ContentEmpty(bd, cd, Get(b, "content"), Get(c, "content"), Under(at, "content"), Response, stack);
  }

  lemma ResponsesEmpty(bd: Json, cd: Json, was: Object, now: Object, at: Location, stack: nat)
    ensures ResponsesFound(bd, cd, was, now, was.Keys, at, stack) == {} <==> ResponsesClean(bd, cd, was, now, stack)
  {
    hide StatusFound, StatusClean;
    forall k | k in was
      ensures StatusFound(bd, cd, was, now, k, at, stack) == {} <==> StatusClean(bd, cd, was, now, k, stack)
      ensures StatusFound(bd, cd, was, now, k, at, stack) <= ResponsesFound(bd, cd, was, now, was.Keys, at, stack)
    {
      StatusEmpty(bd, cd, was, now, k, at, stack);
    }
  }

  lemma StatusEmpty(bd: Json, cd: Json, was: Object, now: Object, k: string, at: Location, stack: nat)
    requires k in was
    ensures StatusFound(bd, cd, was, now, k, at, stack) == {} <==> StatusClean(bd, cd, was, now, k, stack)
  {
    hide ResponseFound, ResponseClean;
    if k in now {
      ResponseEmpty(bd, cd, was[k], now[k], Under(Under(at, "responses"), k), stack);
    }
  }

  lemma OperationEmpty(bd: Json, cd: Json, b: Operation, c: Operation, at: Location, stack: nat)
    ensures OperationFound(bd, cd, b, c, at, stack) == {} <==> OperationClean(bd, cd, b, c, stack)
  {
    hide ParametersFound, ParametersClean, BodyFound, BodyClean, ResponsesFound, ResponsesClean, SameKeyword;
    ParametersEmpty(bd, cd, b.Parameters(), c.Parameters(), at, stack);
    BodyEmpty(bd, cd, b.Body(), c.Body(), at, stack);
    ResponsesEmpty(bd, cd, b.Responses(), c.Responses(), at, stack);
  }

  lemma VerbsEmpty(bd: Json, cd: Json, was: Object, now: Object, at: Location, stack: nat)
    ensures VerbsFound(bd, cd, was, now, Verbs(was), at, stack) == {} <==> PathClean(bd, cd, was, now, stack)
  {
    hide VerbFound, VerbClean, Verbs;
    forall v | v in Verbs(was)
      ensures VerbFound(bd, cd, was, now, v, at, stack) == {} <==> VerbClean(bd, cd, was, now, v, stack)
      ensures VerbFound(bd, cd, was, now, v, at, stack) <= VerbsFound(bd, cd, was, now, Verbs(was), at, stack)
    {
      VerbEmpty(bd, cd, was, now, v, at, stack);
    }
  }

  lemma VerbEmpty(bd: Json, cd: Json, was: Object, now: Object, v: string, at: Location, stack: nat)
    requires v in was
    ensures VerbFound(bd, cd, was, now, v, at, stack) == {} <==> VerbClean(bd, cd, was, now, v, stack)
  {
    hide OperationFound, OperationClean;
    if v in now {
      OperationEmpty(bd, cd, OperationOf(was, v), OperationOf(now, v), Under(at, v), stack);
    }
  }

  lemma PathsEmpty(bd: Json, cd: Json, stack: nat)
    ensures PathsFound(bd, cd, Paths(bd).Keys, stack) == {} <==> PathsClean(bd, cd, stack)
  {
    hide PathFound, ItemClean, Paths;
    forall p | p in Paths(bd)
      ensures PathFound(bd, cd, p, stack) == {} <==> ItemClean(bd, cd, p, stack)
      ensures PathFound(bd, cd, p, stack) <= PathsFound(bd, cd, Paths(bd).Keys, stack)
    {
      PathEmpty(bd, cd, p, stack);
    }
  }

  lemma PathEmpty(bd: Json, cd: Json, p: string, stack: nat)
    requires p in Paths(bd)
    ensures PathFound(bd, cd, p, stack) == {} <==> ItemClean(bd, cd, p, stack)
  {
    hide VerbsFound, PathClean, Paths, Verbs;
    if p in Paths(cd) {
      VerbsEmpty(bd, cd, PathItem(bd, p), PathItem(cd, p), PathPlace(p), stack);
    }
  }

  lemma SecurityEmpty(bd: Json, cd: Json)
    ensures SecurityFound(bd, cd) == {} <==> SecurityClean(bd, cd)
  {
    hide PyEq, SecuritySchemes;
    var was, now := SecuritySchemes(bd), SecuritySchemes(cd);
    forall k | k in was ensures SchemeFound(was, now, k) <= SchemesFound(was, now, was.Keys) {
    }
  }

  lemma CodesEmpty(bd: Json, cd: Json)
    ensures CodesFound(bd, cd) == {} <==> ProblemCodes(bd) <= ProblemCodes(cd)
  {
    hide EachFound, ProblemCodes;
    EachEmpty(ProblemCodes(bd) - ProblemCodes(cd), [Str("x-simula-stable-problem-codes")], ProblemCodeRemoved);
    EmptyDifference(ProblemCodes(bd), ProblemCodes(cd));
  }

  /** Nothing is found exactly where the documents are clean. */
  lemma CleanDocumentsFindNothing(bd: Json, cd: Json, stack: nat)
    ensures DocumentFound(bd, cd, stack) == {} <==> DocumentClean(bd, cd, stack)
  {
    hide CodesFound, SecurityFound, PathsFound, PathsClean, SecurityClean, ProblemCodes, Paths, MajorVersion;
    CodesEmpty(bd, cd);
    SecurityEmpty(bd, cd);
    PathsEmpty(bd, cd, stack);
  }
}
