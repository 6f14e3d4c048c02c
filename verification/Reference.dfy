/** `_resolve` of scripts/openapi_compatibility.py: local `$ref` chains and the JSON pointers they hold. */
module Reference {
  import opened Json
  import opened Text

  datatype Error = UnresolvedReference | StackOverflow

  datatype Resolution = Resolved(value: Json) | Unresolved

  /** One reference token of RFC 6901, section 4: `~1` is undone before `~0`. */
  function Unescape(part: string): string {
    Replace(Replace(part, "~1", "/"), "~0", "~")
  }

  /** The value a sequence of escaped tokens reaches; a token that is no member of a mapping is an error. */
  function Walk(at: Json, parts: seq<string>): Resolution
    decreases parts
  {
    if parts == [] then Resolved(at)
    else
      var key := Unescape(parts[0]);
      if key in Fields(at) then Walk(Fields(at)[key], parts[1..]) else Unresolved
  }

  predicate Local(reference: string) {
    "#/" <= reference
  }

  function Target(document: Json, reference: string): Resolution
    requires Local(reference)
  {
    Walk(document, Split(reference[2..], '/'))
  }

  /** The references the chain may still visit shrink at every hop, so a cyclic chain ends too. */
  function ResolveFrom(document: Json, current: Json, visited: set<string>): Resolution
    decreases Refs(document) + Refs(current) - visited
  {
    var ref := RefOf(current);
    if ref.None? then Resolved(current)
    else if !Local(ref.value) || ref.value in visited then Resolved(current)
    else
      var target := Target(document, ref.value);
      if target.Unresolved? then Unresolved
      else
        assert Refs(target.value) <= Refs(document) by {
          WalkRefs(document, Split(ref.value[2..], '/'));
        }
        assert ref.value in Refs(current);
        ResolveFrom(document, target.value, visited + {ref.value})
  }

  /** The references that the chain from a value follows. */
  function ChainFrom(document: Json, current: Json, visited: set<string>): set<string>
    decreases Refs(document) + Refs(current) - visited
  {
    var ref := RefOf(current);
    if ref.None? || !Local(ref.value) || ref.value in visited then {}
    else
      var target := Target(document, ref.value);
      if target.Unresolved? then {ref.value}
      else
        assert Refs(target.value) <= Refs(document) by {
          WalkRefs(document, Split(ref.value[2..], '/'));
        }
        assert ref.value in Refs(current);
        {ref.value} + ChainFrom(document, target.value, visited + {ref.value})
  }

  function Chain(document: Json, value: Json): set<string> {
    ChainFrom(document, value, {})
  }

  function Resolve(document: Json, value: Json): Resolution {
    ResolveFrom(document, value, {})
  }

  /** `_mapping(_resolve(document, value))`. */
  function ResolvedFields(document: Json, value: Json): Object {
    var r := Resolve(document, value);
    if r.Resolved? then Fields(r.value) else map[]
  }

  lemma {:induction false} WalkRefs(at: Json, parts: seq<string>)
    ensures var r := Walk(at, parts); r.Resolved? ==> Refs(r.value) <= Refs(at)
    decreases parts
  {
    if parts != [] {
      var key := Unescape(parts[0]);
      if key in Fields(at) {
        WalkRefs(Fields(at)[key], parts[1..]);
      }
    }
  }

  /** The loops of the source, which terminate on every document and compute the chain function. */
  method FollowReferences(document: Json, value: Json) returns (r: Resolution)
    ensures r == Resolve(document, value)
  {
    var current, visited: set<string> := value, {};
    while RefOf(current).Some?
      invariant ResolveFrom(document, current, visited) == Resolve(document, value)
      decreases Refs(document) + Refs(current) - visited
    {
      var reference := RefOf(current).value;
      if !Local(reference) || reference in visited {
        return Resolved(current);
      }
      var resolved, parts := document, Split(reference[2..], '/');
      for i := 0 to |parts|
        invariant Walk(resolved, parts[i..]) == Walk(document, parts)
        invariant Refs(resolved) <= Refs(document)
      {
        var key := Unescape(parts[i]);
        assert parts[i..][1..] == parts[i + 1..];
        if key !in Fields(resolved) {
          return Unresolved;
        }
        resolved := Fields(resolved)[key];
      }
      assert Resolved(resolved) == Target(document, reference);
      assert reference in Refs(current);
      visited, current := visited + {reference}, resolved;
    }
    return Resolved(current);
  }

  // ---- pointers ----

  /** Escaping of RFC 6901, section 3. */
  function Escape(key: string): string {
    if key == "" then ""
    else (if key[0] == '~' then "~0" else if key[0] == '/' then "~1" else [key[0]]) + Escape(key[1..])
  }

  /** Halfway back: slashes restored, tildes still escaped. */
  function TildesEscaped(key: string): string {
    if key == "" then ""
    else (if key[0] == '~' then "~0" else [key[0]]) + TildesEscaped(key[1..])
  }

  lemma {:induction false} RestoreSlashes(key: string)
    ensures Replace(Escape(key), "~1", "/") == TildesEscaped(key)
  {
    if key != "" {
      var rest := Escape(key[1..]);
      RestoreSlashes(key[1..]);
      if key[0] == '~' {
        ReplacePassesPair('~', '0', rest, "~1", "/");
      } else if key[0] == '/' {
        ReplaceHits(rest, "~1", "/");
      } else {
        ReplacePasses(key[0], rest, "~1", "/");
      }
    }
  }

  lemma {:induction false} RestoreTildes(key: string)
    ensures Replace(TildesEscaped(key), "~0", "~") == key
  {
    if key != "" {
      var rest := TildesEscaped(key[1..]);
      RestoreTildes(key[1..]);
      if key[0] == '~' {
        ReplaceHits(rest, "~0", "~");
      } else {
        ReplacePasses(key[0], rest, "~0", "~");
      }
    }
  }

  /** The order of the two replacements undoes the escaping of every key. */
  lemma UnescapeEscape(key: string)
    ensures Unescape(Escape(key)) == key
  {
    RestoreSlashes(key);
    RestoreTildes(key);
  }

  /** The opposite order does not: the key `~1` would be read as a slash. */
  lemma OtherOrderConfusesKeys()
    ensures Replace(Replace(Escape("~1"), "~0", "~"), "~1", "/") == "/"
  {
    assert Escape("~1") == "~01" by {
      assert "~1"[1..] == "1" && "1"[1..] == "";
    }
    assert Replace("~01", "~0", "~") == "~1" by {
      assert "~01"[2..] == "1" && "1"[1..] == "" && Replace("1", "~0", "~") == "1";
    }
    assert Replace("~1", "~1", "/") == "/" by {
      assert "~1"[2..] == "";
    }
  }

  lemma {:induction false} EscapeHidesSlashes(key: string)
    ensures '/' !in Escape(key)
  {
    if key != "" {
      EscapeHidesSlashes(key[1..]);
    }
  }

  function EscapeAll(keys: seq<string>): seq<string> {
    seq(|keys|, i requires 0 <= i < |keys| => Escape(keys[i]))
  }

  /** The local reference that names a path of mapping keys. */
  function Pointer(keys: seq<string>): string {
    "#/" + Join(EscapeAll(keys), '/')
  }

  /** The value at a path of mapping keys. */
  function At(j: Json, keys: seq<string>): Resolution
    decreases keys
  {
    if keys == [] then Resolved(j)
    else if keys[0] in Fields(j) then At(Fields(j)[keys[0]], keys[1..])
    else Unresolved
  }

  lemma {:induction false} WalkEscaped(j: Json, keys: seq<string>)
    ensures Walk(j, EscapeAll(keys)) == At(j, keys)
    decreases keys
  {
    if keys != [] {
      UnescapeEscape(keys[0]);
      assert EscapeAll(keys)[1..] == EscapeAll(keys[1..]);
      if keys[0] in Fields(j) {
        WalkEscaped(Fields(j)[keys[0]], keys[1..]);
      }
    }
  }

  /** Pointer round trip: the reference to a nonempty path reaches exactly the value at that path, or fails
      exactly when the path does. */
  lemma PointerReachesPath(document: Json, keys: seq<string>)
    requires keys != []
    ensures Local(Pointer(keys)) && Target(document, Pointer(keys)) == At(document, keys)
  {
    forall p | p in EscapeAll(keys) ensures '/' !in p {
      var i :| 0 <= i < |keys| && p == Escape(keys[i]);
      EscapeHidesSlashes(keys[i]);
    }
    SplitJoin(EscapeAll(keys), '/');
    assert Pointer(keys)[2..] == Join(EscapeAll(keys), '/');
    WalkEscaped(document, keys);
  }

  /** A reference to the path is followed there and then on from there. */
  lemma ResolvePointer(document: Json, keys: seq<string>)
    requires keys != []
    ensures Resolve(document, Obj(map["$ref" := Str(Pointer(keys))])) ==
            if At(document, keys).Resolved? then ResolveFrom(document, At(document, keys).value, {Pointer(keys)})
            else Unresolved
  {
    PointerReachesPath(document, keys);
    var holder := Obj(map["$ref" := Str(Pointer(keys))]);
    assert RefOf(holder) == Some(Pointer(keys));
    assert {} + {Pointer(keys)} == {Pointer(keys)};
  }
}
