/** `fetchKeys` of apps/api/src/auth/supabase-token-verifier.ts: reading a JSON Web Key Set. */
module Jwks {
  import opened Json

  const ALGORITHMS: set<string> := {"ES256", "RS256"}

  /** An admitted key: its algorithm and a handle on the imported public key. */
  datatype Key = Key(algorithm: string, handle: nat)

  type KeySet = map<string, Key>

  /** `createPublicKey`, which fails on material it cannot read. */
  type Importer = Json -> Option<nat>

  /** What the network answers: nothing, an error status, an unreadable body, or a JSON document. */
  datatype Answer = NoAnswer | ErrorStatus | Unreadable | Document(payload: Json)

  datatype Problem = DependencyUnavailable | NotAuthenticated

  datatype FetchResult = Fetched(keys: KeySet) | Rejected(problem: Problem)

  function KidOf(entry: Json): Json { Get(Fields(entry), "kid") }
  function AlgOf(entry: Json): Json { Get(Fields(entry), "alg") }

  /** Entries that may be used: RFC 7517, section 4.3 (one operation, `verify`), 4.4 (an admitted algorithm) and 4.5
      (a nonempty key ID). */
  predicate Eligible(entry: Json) {
    && KidOf(entry).Str? && KidOf(entry).s != ""
    && AlgOf(entry).Str? && AlgOf(entry).s in ALGORITHMS
    && Get(Fields(entry), "key_ops") == Arr([Str("verify")])
  }

  /** Member by member: a key ID, one of the two algorithms, and no operation but `verify`. */
  lemma EligibleMembers(entry: Json)
    ensures Eligible(entry) <==>
              && entry.Obj? && "kid" in entry.fields && "alg" in entry.fields && "key_ops" in entry.fields
              && entry.fields["kid"].Str? && entry.fields["kid"] != Str("")
              && (entry.fields["alg"] == Str("ES256") || entry.fields["alg"] == Str("RS256"))
              && entry.fields["key_ops"].Arr? && |entry.fields["key_ops"].items| == 1
              && entry.fields["key_ops"].items[0] == Str("verify")
  {
    if entry.Obj? && "key_ops" in entry.fields && entry.fields["key_ops"].Arr? {
      var operations := entry.fields["key_ops"].items;
      assert |operations| == 1 && operations[0] == Str("verify") ==> operations == [Str("verify")];
    }
    assert Str("") != Str("verify");
  }

  function KeyFrom(entry: Json, importKey: Importer): Key
    requires Eligible(entry) && importKey(entry).Some?
  {
    Key(AlgOf(entry).s, importKey(entry).value)
  }

  /** The list is usable: every entry is an object, every eligible one can be imported, no eligible key ID repeats. */
  ghost predicate Usable(entries: seq<Json>, importKey: Importer) {
    && (forall i :: 0 <= i < |entries| ==> entries[i].Obj?)
    && (forall i :: 0 <= i < |entries| && Eligible(entries[i]) ==> importKey(entries[i]).Some?)
    && (forall i, j :: 0 <= i < j < |entries| && Eligible(entries[i]) && Eligible(entries[j]) ==>
                         KidOf(entries[i]) != KidOf(entries[j]))
  }

  /** The map holds the eligible entries and nothing else. */
  ghost predicate Holds(keys: KeySet, entries: seq<Json>, importKey: Importer) {
    && (forall k :: k in keys ==> exists i :: 0 <= i < |entries| && Eligible(entries[i]) && KidOf(entries[i]) == Str(k))
    && (forall i :: 0 <= i < |entries| && Eligible(entries[i]) ==>
          && importKey(entries[i]).Some?
          && KidOf(entries[i]).s in keys
          && keys[KidOf(entries[i]).s] == KeyFrom(entries[i], importKey))
  }

  /** The loop over the raw keys. */
  method ParseKeys(entries: seq<Json>, importKey: Importer) returns (ok: bool, parsed: KeySet)
    ensures ok <==> Usable(entries, importKey)
    ensures ok ==> Holds(parsed, entries, importKey)
  {
    hide Usable, Holds, Eligible;
    parsed := map[];
    UsableNone(importKey);
    assert entries[..0] == [];
    for n := 0 to |entries|
      invariant Usable(entries[..n], importKey)
      invariant Holds(parsed, entries[..n], importKey)
    {
      var raw := entries[n];
      assert entries[..n + 1] == entries[..n] + [raw];
      UsableOneMore(parsed, entries[..n], raw, importKey);
      UsablePrefix(entries, n + 1, importKey);
      if !raw.Obj? {
        return false, map[];
      }
      if Eligible(raw) {
        var keyId := KidOf(raw).s;
        if keyId in parsed {
          return false, map[];
        }
        if importKey(raw).None? {
          return false, map[];
        }
        HoldsOneMore(parsed, entries[..n], raw, importKey);
        parsed := parsed[keyId := KeyFrom(raw, importKey)];
      } else {
        HoldsSkipping(parsed, entries[..n], raw, importKey);
      }
    }
    assert entries[..|entries|] == entries;
    return true, parsed;
  }

  lemma UsableNone(importKey: Importer)
    ensures Usable([], importKey) && Holds(map[], [], importKey)
    ensures forall raw :: Eligible(raw) ==> KidOf(raw).Str?
  {
  }

  lemma UsablePrefix(entries: seq<Json>, n: nat, importKey: Importer)
    requires n <= |entries|
    ensures Usable(entries, importKey) ==> Usable(entries[..n], importKey)
  {
    hide Eligible, KidOf;
  }

  lemma UsableOneMore(keys: KeySet, entries: seq<Json>, raw: Json, importKey: Importer)
    requires Usable(entries, importKey) && Holds(keys, entries, importKey)
    ensures Usable(entries + [raw], importKey) <==>
              raw.Obj? && (Eligible(raw) ==> importKey(raw).Some? && KidOf(raw).s !in keys)
  {
    hide Eligible, KeyFrom;
    UsableNone(importKey);
    var more := entries + [raw];
    assert more[|entries|] == raw && forall i :: 0 <= i < |entries| ==> more[i] == entries[i];
    if Eligible(raw) && KidOf(raw).s in keys {
      var i :| 0 <= i < |entries| && Eligible(entries[i]) && KidOf(entries[i]) == Str(KidOf(raw).s);
      assert more[i] == entries[i];
    }
  }

  lemma HoldsOneMore(keys: KeySet, entries: seq<Json>, raw: Json, importKey: Importer)
    requires Holds(keys, entries, importKey) && Eligible(raw) && importKey(raw).Some? && KidOf(raw).s !in keys
    ensures Holds(keys[KidOf(raw).s := KeyFrom(raw, importKey)], entries + [raw], importKey)
  {
    var more, after := entries + [raw], keys[KidOf(raw).s := KeyFrom(raw, importKey)];
    assert more[|entries|] == raw;
    forall k | k in after ensures exists i :: 0 <= i < |more| && Eligible(more[i]) && KidOf(more[i]) == Str(k) {
      if k != KidOf(raw).s {
        var i :| 0 <= i < |entries| && Eligible(entries[i]) && KidOf(entries[i]) == Str(k);
        assert more[i] == entries[i];
      }
    }
  }

  lemma HoldsSkipping(keys: KeySet, entries: seq<Json>, raw: Json, importKey: Importer)
    requires Holds(keys, entries, importKey) && !Eligible(raw)
    ensures Holds(keys, entries + [raw], importKey)
  {
    hide Eligible, KeyFrom;
    var more := entries + [raw];
    forall k | k in keys ensures exists i :: 0 <= i < |more| && Eligible(more[i]) && KidOf(more[i]) == Str(k) {
      var i :| 0 <= i < |entries| && Eligible(entries[i]) && KidOf(entries[i]) == Str(k);
      assert more[i] == entries[i];
    }
  }

  /** The eligible entries determine the map. */
  lemma HoldsDetermines(k1: KeySet, k2: KeySet, entries: seq<Json>, importKey: Importer)
    requires Holds(k1, entries, importKey) && Holds(k2, entries, importKey)
    ensures k1 == k2
  {
    assert k1.Keys == k2.Keys;
    forall k | k in k1 ensures k1[k] == k2[k] {
      var i :| 0 <= i < |entries| && Eligible(entries[i]) && KidOf(entries[i]) == Str(k);
    }
  }

  /** A document that can be installed: an object whose `keys` is a usable list with an eligible entry. */
  ghost predicate Installable(answer: Answer, importKey: Importer) {
    && answer.Document? && answer.payload.Obj? && Get(answer.payload.fields, "keys").Arr?
    && var entries := Get(answer.payload.fields, "keys").items;
       Usable(entries, importKey) && exists i :: 0 <= i < |entries| && Eligible(entries[i])
  }

  /** The fetch: keys exactly from an installable document, a problem otherwise. */
  method FetchKeys(answer: Answer, importKey: Importer) returns (r: FetchResult)
    ensures r.Fetched? <==> Installable(answer, importKey)
    ensures r.Fetched? ==>
              r.keys != map[] && Holds(r.keys, Get(answer.payload.fields, "keys").items, importKey)
    ensures r == Rejected(NotAuthenticated) <==> answer.Document? && !answer.payload.Obj?
  {
    if !answer.Document? {
      return Rejected(DependencyUnavailable);
    }
    if !answer.payload.Obj? {
      return Rejected(NotAuthenticated);
    }
    var rawKeys := Get(answer.payload.fields, "keys");
    if !rawKeys.Arr? {
      return Rejected(DependencyUnavailable);
    }
    var ok, parsed := ParseKeys(rawKeys.items, importKey);
    if !ok {
      return Rejected(DependencyUnavailable);
    }
    if parsed == map[] {
      return Rejected(DependencyUnavailable);
    }
    ghost var k :| k in parsed;
    return Fetched(parsed);
  }

  /** What an installed key set is: for every key ID the one entry that admits verification under it, with its own
      algorithm and its own material, and nothing else. */
  lemma InstalledKeys(keys: KeySet, entries: seq<Json>, importKey: Importer, k: string)
    requires Usable(entries, importKey) && Holds(keys, entries, importKey)
    ensures k in keys <==>
              exists i :: 0 <= i < |entries| && Eligible(entries[i]) && entries[i].fields["kid"] == Str(k)
    ensures forall i :: 0 <= i < |entries| && Eligible(entries[i]) && entries[i].fields["kid"] == Str(k) ==>
                          && k in keys && Str(keys[k].algorithm) == entries[i].fields["alg"]
                          && importKey(entries[i]) == Some(keys[k].handle)
  {
    hide Eligible;
    forall entry | Eligible(entry) ensures entry.Obj? && "kid" in entry.fields && "alg" in entry.fields {
      EligibleMembers(entry);
    }
    forall i | 0 <= i < |entries| && Eligible(entries[i])
      ensures KidOf(entries[i]) == entries[i].fields["kid"] && KidOf(entries[i]).Str?
      ensures AlgOf(entries[i]) == entries[i].fields["alg"] && AlgOf(entries[i]).Str?
    {
      EligibleMembers(entries[i]);
    }
  }
}
