/** What an empty report means for whole calls and replies: a call valid against the baseline is valid against the
    candidate, and a reply valid against the candidate is valid against the baseline. */
module Calls {
  import opened Json
  import opened Reference
  import opened SchemaRules
  import opened SchemaOrder
  import opened Semantics
  import opened Version
  import opened Soundness
  import opened Inclusion
  import opened Heredity
  import opened DocumentRules
  import opened DocumentOrder
  import opened DocumentParts

  // ---- calls ----

  datatype Payload = Payload(mediaType: string, content: Json)

  /** Arguments are given by location and name. */
  datatype Call = Call(path: string, verb: string, arguments: map<ParameterKey, Json>, body: Option<Payload>)

  datatype Reply = Reply(headers: map<string, Json>, payload: Option<Payload>)

  /** The location and name a resolved parameter object describes. */
  function SlotOf(parameter: Object): ParameterKey {
    (GetOr(parameter, "in", Str("unknown")), GetOr(parameter, "name", Str("unknown")))
  }

  /** The location and name an entry of a parameter list stands for, references followed. */
  function EntrySlot(doc: Json, entry: Json): ParameterKey {
    SlotOf(ResolvedFields(doc, entry))
  }

  /** OpenAPI 3.1.0, section 4.8.9.1: an entry is overridden by a later one of the same location and name. */
  ghost predicate Effective(doc: Json, list: seq<Json>, i: int) {
    && 0 <= i < |list|
    && forall j :: i < j < |list| ==> EntrySlot(doc, list[j]) != EntrySlot(doc, list[i])
  }

  /** What a Parameter or Header Object asks of its value, by `schema` or by the schema of its `content`
      (sections 4.8.12 and 4.8.21). */
  ghost predicate HolderAccepts(meaning: Meaning, doc: Json, holder: Object, v: Json) {
    && Accepts(meaning, doc, Get(holder, "schema"), v)
    && HeldContentAccepts(meaning, doc, holder, v)
  }

  function HeldContent(holder: Object): Slots<string> {
    MediaSchemas(Get(holder, "content"))
  }

  ghost predicate HeldContentAccepts(meaning: Meaning, doc: Json, holder: Object, v: Json) {
    forall k :: k in HeldContent(holder) ==> Accepts(meaning, doc, HeldContent(holder)[k], v)
  }

  ghost predicate ArgumentsValid(meaning: Meaning, doc: Json, list: seq<Json>, arguments: map<ParameterKey, Json>) {
    && (forall i :: Effective(doc, list, i) && IsRequired(ResolvedFields(doc, list[i])) ==>
                      EntrySlot(doc, list[i]) in arguments)
    && (forall i :: Effective(doc, list, i) && EntrySlot(doc, list[i]) in arguments ==>
                      HolderAccepts(meaning, doc, ResolvedFields(doc, list[i]), arguments[EntrySlot(doc, list[i])]))
    && (forall a :: a in arguments ==> exists i :: 0 <= i < |list| && EntrySlot(doc, list[i]) == a)
  }

  ghost predicate PayloadValid(meaning: Meaning, doc: Json, content: Slots<string>, payload: Payload) {
    payload.mediaType in content && Accepts(meaning, doc, content[payload.mediaType], payload.content)
  }

  ghost predicate BodyValid(meaning: Meaning, doc: Json, body: Json, payload: Option<Payload>) {
    match payload
    case None => body != Null ==> !IsRequired(ResolvedFields(doc, body))
    case Some(p) => body != Null && PayloadValid(meaning, doc, BodyMedia(doc, body), p)
  }

  function Declared(doc: Json, op: Operation): map<ParameterKey, Object> {
    ParameterMap(doc, op.Parameters())
  }

  /** The entries that apply to an operation: those of its path, and after them its own, which override them. */
  function EntriesOf(op: Operation): seq<Json> {
    Elements(op.pathParameters) + Elements(Get(op.fields, "parameters"))
  }

  ghost predicate OperationAccepts(meaning: Meaning, doc: Json, op: Operation, call: Call) {
    && ArgumentsValid(meaning, doc, EntriesOf(op), call.arguments)
    && BodyValid(meaning, doc, op.Body(), call.body)
  }

  ghost predicate CallValid(meaning: Meaning, doc: Json, call: Call) {
    && call.path in Paths(doc)
    && var item := Fields(Paths(doc)[call.path]);
    && call.verb in item && call.verb in {"get", "put", "post", "delete", "options", "head", "patch", "trace"}
    && OperationAccepts(meaning, doc, Operation(GetOr(item, "parameters", Arr([])), Fields(item[call.verb])), call)
  }

  ghost predicate ReplyValid(meaning: Meaning, doc: Json, response: Json, reply: Reply) {
    var headers := Headers(ResolvedFields(doc, response));
    && (forall k :: k in headers && IsRequired(ResolvedFields(doc, headers[k])) ==> k in reply.headers)
    && (forall k :: k in headers && k in reply.headers ==>
                      HolderAccepts(meaning, doc, ResolvedFields(doc, headers[k]), reply.headers[k]))
    && (reply.payload.Some? ==> PayloadValid(meaning, doc, ContentOf(doc, response), reply.payload.value))
  }

  // ---- the fragment, for whole operations ----

  /** Schemas under common keys are within the fragment; `p` is the side whose acceptance is given. */
  ghost predicate SlotsCovered<K>(pd: Json, qd: Json, p: Slots<K>, q: Slots<K>, stack: nat) {
    forall k :: k in p && k in q ==> Covered(pd, qd, p[k], q[k], stack)
  }

  /** The keys of the checker's dictionary tell apart exactly the entries that OpenAPI tells apart. */
  ghost predicate KeysMatchSlots(doc: Json, list: seq<Json>) {
    forall i, j :: 0 <= i < |list| && 0 <= j < |list| ==>
                     (KeyOf(list[i]) == KeyOf(list[j]) <==> EntrySlot(doc, list[i]) == EntrySlot(doc, list[j]))
  }

  /** A parameter referred to by the same reference keeps its location and name. */
  predicate SameSlots(was: map<ParameterKey, Object>, now: map<ParameterKey, Object>) {
    forall k :: k in was && k in now ==> SlotOf(was[k]) == SlotOf(now[k])
  }

  /** What `content` asks is kept, with all it refers to: the checker does not look at it. */
  ghost predicate ContentKept(pd: Json, qd: Json, p: Object, q: Object) {
    forall k :: k in HeldContent(q) ==>
                  k in HeldContent(p) && HeldContent(p)[k] == HeldContent(q)[k] && Frozen(pd, qd, HeldContent(q)[k])
  }

  ghost predicate ContentsKept(pd: Json, qd: Json, p: map<ParameterKey, Object>, q: map<ParameterKey, Object>) {
    forall k :: k in p && k in q ==> ContentKept(pd, qd, p[k], q[k])
  }

  ghost predicate OperationCovered(bd: Json, cd: Json, b: Operation, c: Operation, stack: nat) {
    && KeysMatchSlots(bd, b.Parameters()) && KeysMatchSlots(cd, c.Parameters())
    && SameSlots(Declared(bd, b), Declared(cd, c)) && ContentsKept(bd, cd, Declared(bd, b), Declared(cd, c))
    && SlotsCovered(bd, cd, ParameterSchemas(Declared(bd, b)), ParameterSchemas(Declared(cd, c)), stack)
    && SlotsCovered(bd, cd, BodyMedia(bd, b.Body()), BodyMedia(cd, c.Body()), stack)
  }

  ghost predicate DocumentCovered(bd: Json, cd: Json, stack: nat) {
    forall p, v :: p in Paths(bd) && p in Paths(cd) && v in Verbs(PathItem(bd, p)) && v in PathItem(cd, p) ==>
                     OperationCovered(bd, cd, OperationOf(PathItem(bd, p), v), OperationOf(PathItem(cd, p), v), stack)
  }

  ghost predicate ResponseCovered(bd: Json, cd: Json, b: Json, c: Json, stack: nat) {
    var was, now := Headers(ResolvedFields(bd, b)), Headers(ResolvedFields(cd, c));
    && (forall k :: k in was && k in now && IsRequired(ResolvedFields(bd, was[k])) ==>
                      IsRequired(ResolvedFields(cd, now[k])))
    && (forall k :: k in was && k in now ==>
                      ContentKept(cd, bd, ResolvedFields(cd, now[k]), ResolvedFields(bd, was[k])))
    && (forall k :: k in was && k in now ==>
                      Covered(cd, bd, HeaderSchema(cd, now[k]), HeaderSchema(bd, was[k]), stack))
    && SlotsCovered(cd, bd, ContentOf(cd, c), ContentOf(bd, b), stack)
  }

  // ---- merged parameter lists ----

  /** The entry of a list that the dictionary keeps for a key. */
  ghost predicate LastWith(list: seq<Json>, key: ParameterKey, i: int) {
    && 0 <= i < |list| && KeyOf(list[i]) == key
    && forall j :: i < j < |list| ==> KeyOf(list[j]) != key
  }

  /** The dictionary holds exactly the last entry for every key. */
  lemma {:induction false} LastEntryWins(doc: Json, list: seq<Json>, key: ParameterKey)
    ensures key in ParameterMap(doc, list) <==> exists i :: LastWith(list, key, i)
    ensures forall i :: LastWith(list, key, i) ==>
                          key in ParameterMap(doc, list) && ParameterMap(doc, list)[key] == ResolvedFields(doc, list[i])
  {
    hide Resolve, ResolvedFields;
    if list != [] {
      var n := |list| - 1;
      var init := list[..n];
      LastEntryWins(doc, init, key);
      if KeyOf(list[n]) == key {
        assert LastWith(list, key, n);
      } else {
        forall i ensures LastWith(list, key, i) <==> LastWith(init, key, i) {
        }
      }
    }
  }

  /** Entries under one key keep the last of them, which is the effective one where keys match slots. */
  lemma EffectiveIsLast(doc: Json, list: seq<Json>, i: int)
    requires KeysMatchSlots(doc, list) && 0 <= i < |list|
    ensures Effective(doc, list, i) <==> LastWith(list, KeyOf(list[i]), i)
  {
    hide EntrySlot, KeyOf;
  }

  /** What is asked of the arguments, in terms of the dictionary. */
  ghost predicate ArgumentsFit(meaning: Meaning, doc: Json, declared: map<ParameterKey, Object>,
                               arguments: map<ParameterKey, Json>) {
    && (forall k :: k in declared && IsRequired(declared[k]) ==> SlotOf(declared[k]) in arguments)
    && (forall k :: k in declared && SlotOf(declared[k]) in arguments ==>
                      HolderAccepts(meaning, doc, declared[k], arguments[SlotOf(declared[k])]))
    && (forall a :: a in arguments ==> exists k :: k in declared && SlotOf(declared[k]) == a)
  }

  /** The entry that the dictionary holds for a key. */
  lemma EntryOf(doc: Json, list: seq<Json>, key: ParameterKey) returns (i: int)
    requires KeysMatchSlots(doc, list) && key in ParameterMap(doc, list)
    ensures 0 <= i < |list| && Effective(doc, list, i) && KeyOf(list[i]) == key
    ensures ParameterMap(doc, list)[key] == ResolvedFields(doc, list[i])
  {
    hide ParameterMap, KeysMatchSlots, Effective, KeyOf, ResolvedFields;
    LastEntryWins(doc, list, key);
    i :| LastWith(list, key, i);
    EffectiveIsLast(doc, list, i);
  }

  /** Every entry has its key in the dictionary, which holds one of the same location and name. */
  lemma KeyHeld(doc: Json, list: seq<Json>, i: int)
    requires KeysMatchSlots(doc, list) && 0 <= i < |list|
    ensures KeyOf(list[i]) in ParameterMap(doc, list)
    ensures SlotOf(ParameterMap(doc, list)[KeyOf(list[i])]) == EntrySlot(doc, list[i])
    ensures Effective(doc, list, i) ==> ParameterMap(doc, list)[KeyOf(list[i])] == ResolvedFields(doc, list[i])
  {
    hide ParameterMap, Effective, KeyOf, ResolvedFields, SlotOf;
    var last := LastOf(list, KeyOf(list[i]), i);
    LastEntryWins(doc, list, KeyOf(list[i]));
    EffectiveIsLast(doc, list, i);
  }

  lemma {:induction false} LastOf(list: seq<Json>, key: ParameterKey, i: int) returns (last: int)
    requires 0 <= i < |list| && KeyOf(list[i]) == key
    ensures LastWith(list, key, last)
    decreases |list| - i
  {
    hide KeyOf;
    if j :| i < j < |list| && KeyOf(list[j]) == key {
      last := LastOf(list, key, j);
    } else {
      last := i;
    }
  }

  /** Where keys match slots the dictionary loses nothing: arguments fit it exactly when they are valid. */
  lemma DictionaryIsFaithful(meaning: Meaning, doc: Json, list: seq<Json>, arguments: map<ParameterKey, Json>)
    requires KeysMatchSlots(doc, list)
    ensures ArgumentsValid(meaning, doc, list, arguments)
       <==> ArgumentsFit(meaning, doc, ParameterMap(doc, list), arguments)
  {
    if ArgumentsValid(meaning, doc, list, arguments) {
      ValidFits(meaning, doc, list, arguments);
    }
    if ArgumentsFit(meaning, doc, ParameterMap(doc, list), arguments) {
      FitsValidly(meaning, doc, list, arguments);
    }
  }

  lemma ValidFits(meaning: Meaning, doc: Json, list: seq<Json>, arguments: map<ParameterKey, Json>)
    requires KeysMatchSlots(doc, list) && ArgumentsValid(meaning, doc, list, arguments)
    ensures ArgumentsFit(meaning, doc, ParameterMap(doc, list), arguments)
  {
    hide ParameterMap, KeysMatchSlots, Effective, KeyOf, ResolvedFields, SlotOf, IsRequired, HolderAccepts;
    var declared := ParameterMap(doc, list);
    forall k | k in declared
      ensures IsRequired(declared[k]) ==> SlotOf(declared[k]) in arguments
      ensures SlotOf(declared[k]) in arguments ==>
                HolderAccepts(meaning, doc, declared[k], arguments[SlotOf(declared[k])])
    {
      var i := EntryOf(doc, list, k);
    }
    forall a | a in arguments ensures exists k :: k in declared && SlotOf(declared[k]) == a {
      var i :| 0 <= i < |list| && EntrySlot(doc, list[i]) == a;
      KeyHeld(doc, list, i);
    }
  }

  lemma FitsValidly(meaning: Meaning, doc: Json, list: seq<Json>, arguments: map<ParameterKey, Json>)
    requires KeysMatchSlots(doc, list) && ArgumentsFit(meaning, doc, ParameterMap(doc, list), arguments)
    ensures ArgumentsValid(meaning, doc, list, arguments)
  {
    hide ParameterMap, KeysMatchSlots, KeyOf, ResolvedFields, SlotOf, IsRequired, HolderAccepts;
    var declared := ParameterMap(doc, list);
    forall i | Effective(doc, list, i)
      ensures IsRequired(ResolvedFields(doc, list[i])) ==> EntrySlot(doc, list[i]) in arguments
      ensures EntrySlot(doc, list[i]) in arguments ==>
                HolderAccepts(meaning, doc, ResolvedFields(doc, list[i]), arguments[EntrySlot(doc, list[i])])
    {
      KeyHeld(doc, list, i);
    }
    forall a | a in arguments ensures exists i :: 0 <= i < |list| && EntrySlot(doc, list[i]) == a {
      var k :| k in declared && SlotOf(declared[k]) == a;
      var i := EntryOf(doc, list, k);
      assert EntrySlot(doc, list[i]) == a;
    }
  }

  /** Distinct keys have distinct slots. */
  lemma SlotsDiffer(doc: Json, list: seq<Json>, k: ParameterKey, j: ParameterKey)
    requires KeysMatchSlots(doc, list) && k in ParameterMap(doc, list) && j in ParameterMap(doc, list)
    requires SlotOf(ParameterMap(doc, list)[k]) == SlotOf(ParameterMap(doc, list)[j])
    ensures k == j
  {
    hide ParameterMap, KeyOf, ResolvedFields, SlotOf, Effective, KeysMatchSlots;
    var i := EntryOf(doc, list, k);
    var h := EntryOf(doc, list, j);
    SameKeys(doc, list, i, h);
  }

  lemma SameKeys(doc: Json, list: seq<Json>, i: int, j: int)
    requires KeysMatchSlots(doc, list) && 0 <= i < |list| && 0 <= j < |list|
    requires SlotOf(ResolvedFields(doc, list[i])) == SlotOf(ResolvedFields(doc, list[j]))
    ensures KeyOf(list[i]) == KeyOf(list[j])
  {
    hide KeyOf, ResolvedFields, SlotOf;
  }

  /** Parameters written out in place are keyed by location and name. */
  lemma WrittenOutMatch(doc: Json, list: seq<Json>)
    requires forall i :: 0 <= i < |list| ==> RefOf(list[i]).None?
    ensures KeysMatchSlots(doc, list)
  {
    hide KeyOf, SlotOf, Resolve;
    forall i | 0 <= i < |list| ensures KeyOf(list[i]) == EntrySlot(doc, list[i]) {
      WrittenOut(doc, list[i]);
    }
  }

  lemma WrittenOut(doc: Json, parameter: Json)
    requires RefOf(parameter).None?
    ensures KeyOf(parameter) == EntrySlot(doc, parameter)
  {
  }

  // ---- requests ----

  lemma HeldCarriesOver(meaning: Meaning, pd: Json, qd: Json, p: Object, q: Object, v: Json)
    requires ContentKept(pd, qd, p, q) && HeldContentAccepts(meaning, pd, p, v)
    ensures HeldContentAccepts(meaning, qd, q, v)
  {
    hide Accepts, Frozen, HeldContent;
    forall k | k in HeldContent(q) ensures Accepts(meaning, qd, HeldContent(q)[k], v) {
      FrozenAccepts(meaning, pd, qd, HeldContent(q)[k], v);
    }
  }

  lemma SlotCarriesOver<K>(meaning: Meaning, bd: Json, cd: Json, b: Slots<K>, c: Slots<K>, stack: nat, key: K, v: Json)
    requires SlotsQuiet(bd, cd, b, c, Request, stack) && SlotsCovered(bd, cd, b, c, stack)
    requires PlainRefs(cd) && forall k :: k in c ==> PlainRefs(c[k])
    requires key in b && Accepts(meaning, bd, b[key], v)
    ensures key in c && Accepts(meaning, cd, c[key], v)
  {
    hide SlotsQuiet, Covered, PlainRefs, Accepts, SchemaFate, SchemaClean;
    SlotQuiet(bd, cd, b, c, Request, stack, key);
    RequestSoundness(meaning, bd, cd, b[key], c[key], stack, v);
  }

  /** In the dictionary the own parameters of an operation replace those of its path. */
  lemma {:induction false} OwnParametersWin(doc: Json, op: Operation)
    ensures Declared(doc, op) ==
            ParameterMap(doc, Elements(op.pathParameters)) + ParameterMap(doc, Elements(Get(op.fields, "parameters")))
  {
    hide ParameterMap;
    Overriding(doc, Elements(op.pathParameters), Elements(Get(op.fields, "parameters")));
  }

  lemma {:induction false} Overriding(doc: Json, first: seq<Json>, second: seq<Json>)
    ensures ParameterMap(doc, first + second) == ParameterMap(doc, first) + ParameterMap(doc, second)
  {
    hide KeyOf, ResolvedFields;
    if second == [] {
      assert first + second == first;
    } else {
      var last := |second| - 1;
      Overriding(doc, first, second[..last]);
      var whole := first + second;
      assert whole[..|whole| - 1] == first + second[..last] && whole[|whole| - 1] == second[last];
    }
  }

  lemma ArgumentsCarryOver(meaning: Meaning, bd: Json, cd: Json, b: Operation, c: Operation, stack: nat, call: Call)
    requires ParametersQuiet(bd, cd, b.Parameters(), c.Parameters(), stack)
    requires OperationCovered(bd, cd, b, c, stack) && PlainRefs(cd) && OperationHas(PlainRefs, c)
    requires ArgumentsValid(meaning, bd, b.Parameters(), call.arguments)
    ensures ArgumentsValid(meaning, cd, c.Parameters(), call.arguments)
  {
    hide ArgumentsValid, ArgumentsFit, KeysMatchSlots, SameSlots, ParameterMap, SlotsCovered, OperationHas, PlainRefs,
      BodyMedia, ParametersQuiet;
    DictionaryIsFaithful(meaning, bd, b.Parameters(), call.arguments);
    DictionaryIsFaithful(meaning, cd, c.Parameters(), call.arguments);
    FittingCarriesOver(meaning, bd, cd, b, c, stack, call.arguments);
  }

  lemma FittingCarriesOver(meaning: Meaning, bd: Json, cd: Json, b: Operation, c: Operation, stack: nat,
                           arguments: map<ParameterKey, Json>)
    requires ParametersQuiet(bd, cd, b.Parameters(), c.Parameters(), stack)
    requires OperationCovered(bd, cd, b, c, stack) && PlainRefs(cd) && OperationHas(PlainRefs, c)
    requires ArgumentsFit(meaning, bd, Declared(bd, b), arguments)
    ensures ArgumentsFit(meaning, cd, Declared(cd, c), arguments)
  {
    hide ParameterMap, IsRequired, SlotsFate, SlotsClean, AllResolve, SlotsCovered, PlainRefs, OperationHas, SlotOf,
      HolderAccepts, BodyMedia, Get, KeysMatchSlots, ContentsKept;
    var was, now := Declared(bd, b), Declared(cd, c);
    forall k | k in was ensures k in now && SlotOf(was[k]) == SlotOf(now[k]) {
      SlotKept(bd, cd, ParameterSchemas(was), ParameterSchemas(now), stack, k);
    }
    forall k | k in now && SlotOf(now[k]) in arguments
      ensures HolderAccepts(meaning, cd, now[k], arguments[SlotOf(now[k])])
    {
      var j :| j in was && SlotOf(was[j]) == SlotOf(now[k]);
      SlotsDiffer(cd, c.Parameters(), j, k);
      ArgumentCarriesOver(meaning, bd, cd, b, c, stack, k, arguments[SlotOf(now[k])]);
    }
  }

  lemma ArgumentCarriesOver(meaning: Meaning, bd: Json, cd: Json, b: Operation, c: Operation, stack: nat,
                            key: ParameterKey, v: Json)
    requires ParametersQuiet(bd, cd, b.Parameters(), c.Parameters(), stack)
    requires OperationCovered(bd, cd, b, c, stack) && PlainRefs(cd) && OperationHas(PlainRefs, c)
    requires key in Declared(bd, b) && HolderAccepts(meaning, bd, Declared(bd, b)[key], v)
    ensures key in Declared(cd, c) && HolderAccepts(meaning, cd, Declared(cd, c)[key], v)
  {
    hide ParameterMap, SlotsFate, SlotsClean, AllResolve, SlotsCovered, PlainRefs, OperationHas, Accepts, BodyMedia,
      KeysMatchSlots, Hereditary, SameSlots, NoNewRequirement, ContentKept, HeldContentAccepts;
    PlainIsHereditary();
    PartsInherit(PlainRefs, c);
    ParametersInherit(PlainRefs, cd, c.Parameters());
    SlotCarriesOver(meaning, bd, cd, ParameterSchemas(Declared(bd, b)), ParameterSchemas(Declared(cd, c)), stack, key,
                    v);
    HeldCarriesOver(meaning, bd, cd, Declared(bd, b)[key], Declared(cd, c)[key], v);
  }

  lemma SlotKept<K>(bd: Json, cd: Json, b: Slots<K>, c: Slots<K>, stack: nat, key: K)
    requires SlotsClean(bd, cd, b, c, Request, stack) && key in b
    ensures key in c
  {
    hide SchemaClean;
  }

  lemma BodyCarriesOver(meaning: Meaning, bd: Json, cd: Json, b: Operation, c: Operation, stack: nat,
                        payload: Option<Payload>)
    requires BodyQuiet(bd, cd, b.Body(), c.Body(), stack)
    requires OperationCovered(bd, cd, b, c, stack) && PlainRefs(cd) && OperationHas(PlainRefs, c)
    requires BodyValid(meaning, bd, b.Body(), payload)
    ensures BodyValid(meaning, cd, c.Body(), payload)
  {
    hide BodyQuiet, SlotsQuiet, SlotsCovered, PlainRefs, OperationHas, Accepts, IsRequired, MediaSchemas, Resolve,
      SameSlots, Declared, ParameterSchemas, KeysMatchSlots, Hereditary;
    BodyShape(bd, cd, b.Body(), c.Body(), stack);
    if payload.Some? {
      PlainIsHereditary();
      PartsInherit(PlainRefs, c);
      ContentInherits(PlainRefs, cd, c.Body());
      assert BodyMedia(cd, c.Body()) == ContentOf(cd, c.Body());
      SlotCarriesOver(meaning, bd, cd, BodyMedia(bd, b.Body()), BodyMedia(cd, c.Body()), stack,
                      payload.value.mediaType, payload.value.content);
    }
  }

  /** Call compatibility: with no major bump and an empty report, every call valid against the baseline is valid
      against the candidate. */
  lemma CallCompatibility(meaning: Meaning, bd: Json, cd: Json, stack: nat, call: Call)
    requires DocumentQuiet(bd, cd, stack) && MajorVersion(cd) <= MajorVersion(bd)
    requires DocumentCovered(bd, cd, stack) && PlainRefs(cd)
    requires CallValid(meaning, bd, call)
    ensures CallValid(meaning, cd, call)
  {
    hide DocumentQuiet, PathQuiet, OperationQuiet, ParametersQuiet, BodyQuiet, ResponsesQuiet, SameKeyword,
      ArgumentsValid, BodyValid, OperationCovered, PlainRefs, OperationHas, Paths, SecurityClean, ProblemCodes,
      MajorVersion, Declared, Hereditary;
    DocumentShape(bd, cd, stack);
    QuietOperation(bd, cd, call.path, call.verb, stack);
    var b := OperationOf(PathItem(bd, call.path), call.verb);
    var c := OperationOf(PathItem(cd, call.path), call.verb);
    OperationShape(bd, cd, b, c, stack);
    PlainIsHereditary();
    OperationsInherit(PlainRefs, cd, call.path, call.verb);
    ArgumentsCarryOver(meaning, bd, cd, b, c, stack, call);
    BodyCarriesOver(meaning, bd, cd, b, c, stack, call.body);
  }

  lemma QuietOperation(bd: Json, cd: Json, path: string, verb: string, stack: nat)
    requires path in Paths(bd) && verb in Verbs(PathItem(bd, path)) && PathQuiet(bd, cd, path, stack)
    ensures path in Paths(cd) && verb in Verbs(PathItem(cd, path)) && verb in PathItem(cd, path)
    ensures OperationQuiet(bd, cd, OperationOf(PathItem(bd, path), verb), OperationOf(PathItem(cd, path), verb), stack)
  {
    hide OperationQuiet, Paths;
    assert ItemQuiet(bd, cd, path, verb, stack);
  }

  /** Whatever the candidate requires after merging path and operation parameters, the baseline required too. */
  lemma RequiredParametersWereRequired(bd: Json, cd: Json, b: Operation, c: Operation, stack: nat, i: int)
    requires ParametersQuiet(bd, cd, b.Parameters(), c.Parameters(), stack)
    requires 0 <= i < |c.Parameters()| && LastWith(c.Parameters(), KeyOf(c.Parameters()[i]), i)
    requires IsRequired(ResolvedFields(cd, c.Parameters()[i]))
    ensures exists j :: LastWith(b.Parameters(), KeyOf(c.Parameters()[i]), j)
                        && IsRequired(ResolvedFields(bd, b.Parameters()[j]))
  {
    hide SlotsFate, SlotsClean, ParameterSchemas, IsRequired, ResolvedFields, AllResolve, KeyOf;
    var key := KeyOf(c.Parameters()[i]);
    LastEntryWins(cd, c.Parameters(), key);
    LastEntryWins(bd, b.Parameters(), key);
  }

  // ---- replies ----

  /** Reply compatibility: a reply the candidate may send for a status and media type the baseline knows is valid
      against the baseline. */
  lemma ReplyCompatibility(meaning: Meaning, bd: Json, cd: Json, b: Json, c: Json, stack: nat, reply: Reply)
    requires ResponseQuiet(bd, cd, b, c, stack) && ResponseCovered(bd, cd, b, c, stack)
    requires PlainRefs(bd) && PlainRefs(b)
    requires reply.payload.Some? ==> reply.payload.value.mediaType in ContentOf(bd, b)
    requires ReplyValid(meaning, cd, c, reply)
    ensures ReplyValid(meaning, bd, b, reply)
  {
    hide ResponseQuiet, HeadersQuiet, SlotsQuiet, PlainRefs, Accepts, Covered, Resolve, ContentOf, Headers,
      HeaderSchema, Hereditary, IsRequired, HolderAccepts, ContentKept;
    ResponseShape(bd, cd, b, c, stack);
    var was, now := Headers(ResolvedFields(bd, b)), Headers(ResolvedFields(cd, c));
    HeadersShape(bd, cd, was, now, stack);
    PlainIsHereditary();
    HeadersInherit(PlainRefs, bd, b);
    ContentInherits(PlainRefs, bd, b);
    forall k | k in was && k in reply.headers
      ensures HolderAccepts(meaning, bd, ResolvedFields(bd, was[k]), reply.headers[k])
    {
      HeaderCarriesOver(meaning, bd, cd, was, now, k, stack, reply.headers[k]);
    }
    if reply.payload.Some? {
      ContentCarriesOver(meaning, bd, cd, ContentOf(bd, b), ContentOf(cd, c), stack, reply.payload.value);
    }
  }

  ghost predicate RepliesCovered(bd: Json, cd: Json, b: Operation, c: Operation, stack: nat) {
    forall s :: s in b.Responses() && s in c.Responses() ==>
                  ResponseCovered(bd, cd, b.Responses()[s], c.Responses()[s], stack)
  }

  /** The same for documents: whatever an operation of the baseline knows how to answer, the candidate answers with
      replies the baseline accepts. */
  lemma ReplyCompatibilityOfDocuments(meaning: Meaning, bd: Json, cd: Json, stack: nat, path: string, verb: string,
                                      status: string, reply: Reply)
    requires DocumentQuiet(bd, cd, stack) && MajorVersion(cd) <= MajorVersion(bd) && PlainRefs(bd)
    requires path in Paths(bd) && verb in Verbs(PathItem(bd, path))
    requires status in OperationOf(PathItem(bd, path), verb).Responses()
    requires path in Paths(cd) && verb in PathItem(cd, path) ==>
               RepliesCovered(bd, cd, OperationOf(PathItem(bd, path), verb), OperationOf(PathItem(cd, path), verb),
                              stack)
    requires reply.payload.Some? ==>
               reply.payload.value.mediaType
               in ContentOf(bd, OperationOf(PathItem(bd, path), verb).Responses()[status])
    ensures path in Paths(cd) && verb in PathItem(cd, path)
    ensures status in OperationOf(PathItem(cd, path), verb).Responses()
    ensures ReplyValid(meaning, cd, OperationOf(PathItem(cd, path), verb).Responses()[status], reply) ==>
              ReplyValid(meaning, bd, OperationOf(PathItem(bd, path), verb).Responses()[status], reply)
  {
    hide DocumentQuiet, PathQuiet, OperationQuiet, ParametersQuiet, BodyQuiet, ResponseQuiet, SameKeyword,
      ReplyValid, ResponseCovered, PlainRefs, Paths, SecurityClean, ProblemCodes, MajorVersion, ContentOf, Hereditary;
    DocumentShape(bd, cd, stack);
    QuietOperation(bd, cd, path, verb, stack);
    var b, c := OperationOf(PathItem(bd, path), verb), OperationOf(PathItem(cd, path), verb);
    OperationShape(bd, cd, b, c, stack);
    PlainIsHereditary();
    OperationsInherit(PlainRefs, bd, path, verb);
    PartsInherit(PlainRefs, b);
    if ReplyValid(meaning, cd, c.Responses()[status], reply) {
      ReplyCompatibility(meaning, bd, cd, b.Responses()[status], c.Responses()[status], stack, reply);
    }
  }

  lemma HeaderCarriesOver(meaning: Meaning, bd: Json, cd: Json, was: Object, now: Object, k: string, stack: nat,
                          v: Json)
    requires k in was && HeaderQuiet(bd, cd, was, now, k, stack)
    requires Covered(cd, bd, HeaderSchema(cd, now[k]), HeaderSchema(bd, was[k]), stack)
    requires PlainRefs(bd) && PlainRefs(HeaderSchema(bd, was[k]))
    requires ContentKept(cd, bd, ResolvedFields(cd, now[k]), ResolvedFields(bd, was[k]))
    requires HolderAccepts(meaning, cd, ResolvedFields(cd, now[k]), v)
    ensures HolderAccepts(meaning, bd, ResolvedFields(bd, was[k]), v)
  {
    hide Covered, PlainRefs, Accepts, SchemaFate, SchemaClean, Resolve, ContentKept, HeldContentAccepts;
    ResponseSoundness(meaning, bd, cd, HeaderSchema(bd, was[k]), HeaderSchema(cd, now[k]), stack, v);
    HeldCarriesOver(meaning, cd, bd, ResolvedFields(cd, now[k]), ResolvedFields(bd, was[k]), v);
  }

  lemma ContentCarriesOver(meaning: Meaning, bd: Json, cd: Json, b: Slots<string>, c: Slots<string>, stack: nat,
                           payload: Payload)
    requires SlotsQuiet(bd, cd, b, c, Response, stack) && SlotsCovered(cd, bd, c, b, stack)
    requires PlainRefs(bd) && forall k :: k in b ==> PlainRefs(b[k])
    requires payload.mediaType in b && PayloadValid(meaning, cd, c, payload)
    ensures PayloadValid(meaning, bd, b, payload)
  {
    hide SlotsQuiet, Covered, PlainRefs, Accepts, SchemaFate, SchemaClean;
    SlotQuiet(bd, cd, b, c, Response, stack, payload.mediaType);
    ResponseSoundness(meaning, bd, cd, b[payload.mediaType], c[payload.mediaType], stack, payload.content);
  }
}
