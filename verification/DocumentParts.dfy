/** Whatever a document passes on, it passes on to every schema the comparison of documents finds in it. */
module DocumentParts {
  import opened Json
  import opened Reference
  import opened Heredity
  import opened DocumentRules
  import opened DocumentOrder

  // ---- the schemas of an operation ----

  lemma MediaInherit(P: Json -> bool, content: Json)
    requires Hereditary(P) && P(content)
    ensures forall k :: k in MediaSchemas(content) ==> P(MediaSchemas(content)[k])
  {
    hide Hereditary;
    FieldsInherit(P, content);
    forall k | k in Fields(content) ensures P(Get(Fields(Fields(content)[k]), "schema")) {
      GetInherits(P, Fields(content)[k], "schema");
    }
  }

  lemma ContentInherits(P: Json -> bool, doc: Json, holder: Json)
    requires Hereditary(P) && P(doc) && P(holder)
    ensures forall k :: k in ContentOf(doc, holder) ==> P(ContentOf(doc, holder)[k])
  {
    hide Hereditary, Resolve, MediaSchemas;
    ResolvedInherits(P, doc, holder);
    GetInherits(P, Obj(ResolvedFields(doc, holder)), "content");
    MediaInherit(P, Get(ResolvedFields(doc, holder), "content"));
  }

  lemma {:induction false} ParametersInherit(P: Json -> bool, doc: Json, list: seq<Json>)
    requires Hereditary(P) && P(doc) && forall i :: 0 <= i < |list| ==> P(list[i])
    ensures forall k :: k in ParameterMap(doc, list) ==> P(Get(ParameterMap(doc, list)[k], "schema"))
  {
    hide Hereditary, Resolve;
    if list != [] {
      var last := list[|list| - 1];
      ParametersInherit(P, doc, list[..|list| - 1]);
      ResolvedInherits(P, doc, last);
      GetInherits(P, Obj(ResolvedFields(doc, last)), "schema");
    }
  }

  lemma HeadersInherit(P: Json -> bool, doc: Json, response: Json)
    requires Hereditary(P) && P(doc) && P(response)
    ensures var headers := Headers(ResolvedFields(doc, response));
            forall k :: k in headers ==> P(headers[k]) && P(HeaderSchema(doc, headers[k]))
  {
    hide Hereditary, Resolve, ResolvedFields;
    ResolvedInherits(P, doc, response);
    GetInherits(P, Obj(ResolvedFields(doc, response)), "headers");
    FieldsInherit(P, Get(ResolvedFields(doc, response), "headers"));
    var headers := Headers(ResolvedFields(doc, response));
    forall k | k in headers ensures P(HeaderSchema(doc, headers[k])) {
      ResolvedInherits(P, doc, headers[k]);
      GetInherits(P, Obj(ResolvedFields(doc, headers[k])), "schema");
    }
  }

  // ---- operations ----

  ghost predicate OperationHas(P: Json -> bool, op: Operation) {
    P(op.pathParameters) && P(Obj(op.fields))
  }

  lemma OperationsInherit(P: Json -> bool, doc: Json, path: string, verb: string)
    requires Hereditary(P) && P(doc) && path in Paths(doc) && verb in PathItem(doc, path)
    ensures OperationHas(P, OperationOf(PathItem(doc, path), verb))
  {
    GetInherits(P, doc, "paths");
    FieldsInherit(P, Get(Fields(doc), "paths"));
    var item := Paths(doc)[path];
    FieldsInherit(P, item);
    FieldsInherit(P, Fields(item)[verb]);
  }

  lemma PartsInherit(P: Json -> bool, op: Operation)
    requires Hereditary(P) && OperationHas(P, op)
    ensures forall i :: 0 <= i < |op.Parameters()| ==> P(op.Parameters()[i])
    ensures P(op.Body())
    ensures forall k :: k in op.Responses() ==> P(op.Responses()[k])
  {
    hide Hereditary;
    var fields := Obj(op.fields);
    ElementsInherit(P, op.pathParameters);
    GetInherits(P, fields, "parameters");
    ElementsInherit(P, Get(op.fields, "parameters"));
    GetInherits(P, fields, "requestBody");
    GetInherits(P, fields, "responses");
    FieldsInherit(P, Get(op.fields, "responses"));
  }
}
