/** Properties of a document that pass to everything nested in it, and so to whatever its references lead to. */
module Heredity {
  import opened Json
  import opened Reference
  import Text

  /** A property that passes to members and elements, and that empty values have. */
  ghost predicate Hereditary(P: Json -> bool) {
    && P(Null) && P(Arr([])) && P(Obj(map[]))
    && (forall j, k :: P(j) && k in Fields(j) ==> P(Fields(j)[k]))
    && (forall j, i :: P(j) && 0 <= i < |Elements(j)| ==> P(Elements(j)[i]))
  }

  lemma NothingInherits(P: Json -> bool)
    requires Hereditary(P)
    ensures P(Null) && P(Obj(map[]))
  {
  }

  lemma FieldsInherit(P: Json -> bool, j: Json)
    requires Hereditary(P) && P(j)
    ensures P(Obj(Fields(j)))
    ensures forall k :: k in Fields(j) ==> P(Fields(j)[k])
  {
  }

  lemma GetInherits(P: Json -> bool, j: Json, key: string)
    requires Hereditary(P) && P(j)
    ensures P(Get(Fields(j), key))
  {
  }

  lemma ElementsInherit(P: Json -> bool, j: Json)
    requires Hereditary(P) && P(j)
    ensures forall i :: 0 <= i < |Elements(j)| ==> P(Elements(j)[i])
  {
  }

  // ---- following references ----

  lemma {:induction false} WalkInherits(P: Json -> bool, at: Json, parts: seq<string>)
    requires Hereditary(P) && P(at)
    ensures Walk(at, parts).Resolved? ==> P(Walk(at, parts).value)
    decreases parts
  {
    hide Hereditary;
    if parts != [] {
      FieldsInherit(P, at);
      var key := Unescape(parts[0]);
      if key in Fields(at) {
        WalkInherits(P, Fields(at)[key], parts[1..]);
      }
    }
  }

  lemma {:induction false} ChainInherits(P: Json -> bool, doc: Json, current: Json, visited: set<string>)
    requires Hereditary(P) && P(doc) && P(current)
    ensures ResolveFrom(doc, current, visited).Resolved? ==> P(ResolveFrom(doc, current, visited).value)
    decreases Refs(doc) + Refs(current) - visited
  {
    hide Hereditary;
    var ref := RefOf(current);
    if ref.Some? && Local(ref.value) && ref.value !in visited {
      var parts := Text.Split(ref.value[2..], '/');
      WalkRefs(doc, parts);
      WalkInherits(P, doc, parts);
      assert ref.value in Refs(current);
      if Target(doc, ref.value).Resolved? {
        ChainInherits(P, doc, Target(doc, ref.value).value, visited + {ref.value});
      }
    }
  }

  lemma ResolvedInherits(P: Json -> bool, doc: Json, j: Json)
    requires Hereditary(P) && P(doc) && P(j)
    ensures Resolve(doc, j).Resolved? ==> P(Resolve(doc, j).value)
    ensures P(Obj(ResolvedFields(doc, j)))
  {
    hide ResolveFrom, Hereditary;
    NothingInherits(P);
    ChainInherits(P, doc, j, {});
    if Resolve(doc, j).Resolved? {
      FieldsInherit(P, Resolve(doc, j).value);
    }
  }
}
