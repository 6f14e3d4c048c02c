/** scripts/check_web_bundle_secrets.py: the search for a canary through a file read chunk by chunk. */
module BundleScan {
  import opened Json
  import opened Text

  type Bytes = seq<bv8>

  const MINIMUM_CANARY_BYTES: nat := 16

  /** The whole file. */
  function Content(chunks: seq<Bytes>): Bytes {
    if chunks == [] then [] else Content(chunks[..|chunks| - 1]) + chunks[|chunks| - 1]
  }

  /** `s[-n:]`, or nothing when `n` is zero. */
  function Tail(s: Bytes, n: nat): Bytes {
    if n <= |s| then s[|s| - n..] else s
  }

  /** A needle that is not in what was read before starts, if at all, in the part carried over. */
  lemma CarryOverSuffices(needle: Bytes, read: Bytes, chunk: Bytes)
    requires needle != [] && !Occurs(needle, read)
    ensures Occurs(needle, Tail(read, |needle| - 1) + chunk) <==> Occurs(needle, read + chunk)
  {
    var carried := Tail(read, |needle| - 1);
    var whole, combined := read + chunk, carried + chunk;
    var skipped := |read| - |carried|;
    assert whole[skipped..] == combined;
    if Occurs(needle, combined) {
      var i :| 0 <= i <= |combined| && OccursAt(needle, combined, i);
      assert OccursAt(needle, whole, skipped + i);
    }
    if Occurs(needle, whole) {
      var i :| 0 <= i <= |whole| && OccursAt(needle, whole, i);
      StartsLate(needle, read, chunk, i);
      assert OccursAt(needle, combined, i - skipped);
    }
  }

  lemma StartsLate(needle: Bytes, read: Bytes, chunk: Bytes, i: int)
    requires needle != [] && !Occurs(needle, read) && OccursAt(needle, read + chunk, i)
    ensures i > |read| - |needle|
  {
    if i + |needle| <= |read| {
      assert (read + chunk)[i..i + |needle|] == read[i..i + |needle|];
      assert OccursAt(needle, read, i);
    }
  }

  lemma TailOfTail(read: Bytes, chunk: Bytes, n: nat)
    ensures Tail(Tail(read, n) + chunk, n) == Tail(read + chunk, n)
  {
  }

  /** `_contains`: the chunks are what `read` returns until the end of the file, none of them empty. */
  method Contains(chunks: seq<Bytes>, needle: Bytes) returns (found: bool)
    requires forall i :: 0 <= i < |chunks| ==> chunks[i] != []
    ensures needle != [] ==> (found <==> Occurs(needle, Content(chunks)))
    ensures needle == [] ==> (found <==> chunks != [])
  {
    var overlap := if |needle| > 0 then |needle| - 1 else 0;
    var previous: Bytes := [];
    for i := 0 to |chunks|
      invariant previous == Tail(Content(chunks[..i]), overlap)
      invariant needle != [] ==> !Occurs(needle, Content(chunks[..i]))
      invariant needle == [] ==> i == 0
    {
      ghost var read := Content(chunks[..i]);
      assert chunks[..i + 1][..i] == chunks[..i];
      assert Content(chunks[..i + 1]) == read + chunks[i];
      var combined := previous + chunks[i];
      if needle != [] {
        CarryOverSuffices(needle, read, chunks[i]);
      } else {
        assert OccursAt(needle, combined, 0);
      }
      if Occurs(needle, combined) {
        if needle != [] {
          FoundStays(needle, chunks, i + 1);
        }
        return true;
      }
      TailOfTail(read, chunks[i], overlap);
      previous := if overlap > 0 then Tail(combined, overlap) else [];
    }
    assert chunks[..|chunks|] == chunks;
    return false;
  }

  /** What a part of the file contains, the file contains. */
  lemma {:induction false} FoundStays(needle: Bytes, chunks: seq<Bytes>, i: nat)
    requires i <= |chunks| && Occurs(needle, Content(chunks[..i]))
    ensures Occurs(needle, Content(chunks))
    decreases |chunks| - i
  {
    if i == |chunks| {
      assert chunks[..i] == chunks;
    } else {
      var read := Content(chunks[..i]);
      var k :| 0 <= k <= |read| && OccursAt(needle, read, k);
      assert chunks[..i + 1][..i] == chunks[..i];
      assert (read + chunks[i])[k..k + |needle|] == read[k..k + |needle|];
      assert OccursAt(needle, Content(chunks[..i + 1]), k);
      FoundStays(needle, chunks, i + 1);
    }
  }

  datatype Artifact = Artifact(path: string, chunks: seq<Bytes>)

  datatype Canary = Canary(name: string, value: Bytes)

  datatype Leak = Leak(path: string, name: string)

  predicate Acceptable(canaries: seq<Canary>) {
    canaries != [] && forall i :: 0 <= i < |canaries| ==> |canaries[i].value| >= MINIMUM_CANARY_BYTES
  }

  /** The leaks of one file, in the order of the canaries. */
  function LeaksOf(artifact: Artifact, canaries: seq<Canary>): seq<Leak> {
    if canaries == [] then []
    else
      LeaksOf(artifact, canaries[..|canaries| - 1])
      + if Occurs(canaries[|canaries| - 1].value, Content(artifact.chunks)) then
          [Leak(artifact.path, canaries[|canaries| - 1].name)]
        else []
  }

  function AllLeaks(artifacts: seq<Artifact>, canaries: seq<Canary>): seq<Leak> {
    if artifacts == [] then []
    else AllLeaks(artifacts[..|artifacts| - 1], canaries) + LeaksOf(artifacts[|artifacts| - 1], canaries)
  }

  /** `find_canary_leaks` on the files to scan and the canaries by label: every leak and nothing else, or a refusal of
      canaries that could not be told from chance. */
  method FindCanaryLeaks(artifacts: seq<Artifact>, canaries: seq<Canary>) returns (leaks: Option<seq<Leak>>)
    requires forall a :: a in artifacts ==> forall i :: 0 <= i < |a.chunks| ==> a.chunks[i] != []
    ensures leaks.None? <==> canaries == [] || exists c :: c in canaries && |c.value| < 16
    ensures leaks.Some? ==> leaks.value == AllLeaks(artifacts, canaries)
  {
    assert Acceptable(canaries) <==> canaries != [] && forall c :: c in canaries ==> |c.value| >= 16;
    if !Acceptable(canaries) {
      return None;
    }
    var found: seq<Leak> := [];
    for i := 0 to |artifacts|
      invariant found == AllLeaks(artifacts[..i], canaries)
    {
      ghost var before := found;
      for j := 0 to |canaries|
        invariant found == before + LeaksOf(artifacts[i], canaries[..j])
      {
        assert canaries[..j + 1][..j] == canaries[..j];
        var leaked := Contains(artifacts[i].chunks, canaries[j].value);
        if leaked {
          found := found + [Leak(artifacts[i].path, canaries[j].name)];
        }
      }
      assert canaries[..|canaries|] == canaries;
      assert artifacts[..i + 1][..i] == artifacts[..i];
    }
    assert artifacts[..|artifacts|] == artifacts;
    return Some(found);
  }

  lemma {:induction false} LeakOfFile(artifact: Artifact, canaries: seq<Canary>, leak: Leak)
    ensures leak in LeaksOf(artifact, canaries) <==>
            leak.path == artifact.path
            && exists c :: c in canaries && c.name == leak.name && Occurs(c.value, Content(artifact.chunks))
  {
    if canaries != [] {
      var last := |canaries| - 1;
      LeakOfFile(artifact, canaries[..last], leak);
      assert canaries == canaries[..last] + [canaries[last]];
    }
  }

  /** A leak is reported exactly when the canary occurs in the file. */
  lemma {:induction false} LeakIsReported(artifacts: seq<Artifact>, canaries: seq<Canary>, leak: Leak)
    ensures leak in AllLeaks(artifacts, canaries) <==>
            exists a, c :: a in artifacts && c in canaries && a.path == leak.path && c.name == leak.name
                           && Occurs(c.value, Content(a.chunks))
  {
    hide Content, Occurs;
    if artifacts != [] {
      var last := |artifacts| - 1;
      LeakIsReported(artifacts[..last], canaries, leak);
      LeakOfFile(artifacts[last], canaries, leak);
      assert artifacts == artifacts[..last] + [artifacts[last]];
    }
  }

  /** The leaks come file by file and, within a file, canary by canary: the list is put together from those of single
      files and single canaries. */
  lemma {:induction false} LeaksInOrder(a: seq<Artifact>, b: seq<Artifact>, canaries: seq<Canary>)
    ensures AllLeaks(a + b, canaries) == AllLeaks(a, canaries) + AllLeaks(b, canaries)
  {
    hide LeaksOf;
    if b == [] {
      assert a + b == a;
    } else {
      var last := |b| - 1;
      LeaksInOrder(a, b[..last], canaries);
      assert (a + b)[..|a + b| - 1] == a + b[..last];
    }
  }

  lemma {:induction false} LeaksOfFileInOrder(artifact: Artifact, c: seq<Canary>, d: seq<Canary>)
    ensures AllLeaks([artifact], c + d) == AllLeaks([artifact], c) + AllLeaks([artifact], d)
  {
    LeaksByCanary(artifact, c, d);
    assert [artifact][..0] == [];
  }

  lemma {:induction false} LeaksByCanary(artifact: Artifact, c: seq<Canary>, d: seq<Canary>)
    ensures LeaksOf(artifact, c + d) == LeaksOf(artifact, c) + LeaksOf(artifact, d)
  {
    hide Content, Occurs;
    if d == [] {
      assert c + d == c;
    } else {
      var last := |d| - 1;
      LeaksByCanary(artifact, c, d[..last]);
      assert (c + d)[..|c + d| - 1] == c + d[..last];
    }
  }

  /** One file and one canary. */
  lemma LeakOfOne(artifact: Artifact, canary: Canary)
    ensures AllLeaks([artifact], [canary]) ==
            if Occurs(canary.value, Content(artifact.chunks)) then [Leak(artifact.path, canary.name)] else []
  {
    hide Content, Occurs;
    assert [artifact][..0] == [] && [canary][..0] == [];
    assert LeaksOf(artifact, []) == [];
  }
}
