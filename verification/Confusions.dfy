/** Different manifest entries with the same canonical text: what line breaks in keys and dates can do. */
module Confusions {
  import opened Ordering
  import opened Text
  import opened Payloads

  lemma PairOrdered(r: seq<string>, s: seq<string>)
    requires RowLeq(r, s)
    ensures Ordered([r, s])
  {
    hide RowLeq;
    RowTotal(r, r);
    RowTotal(s, s);
  }

  // ---- artifacts ----

  /** What `validate_manifest` has checked of the artifacts when it asks for the checksum of the bundle. */
  predicate Bundle(artifacts: seq<Artifact>) {
    && |artifacts| == 2 && AllReadable(artifacts) && artifacts[0].key != artifacts[1].key
    && Digest(artifacts[0].sha256) && Digest(artifacts[1].sha256)
  }

  predicate Digest(s: string) {
    |s| == 64 && forall i :: 0 <= i < |s| ==> s[i] in "0123456789abcdef"
  }

  lemma PairPayload(a: Artifact, b: Artifact)
    requires ValidArtifact(a) && ValidArtifact(b)
    requires a.key[0] < b.key[0]
    ensures Payload(ArtifactRows([a, b])) == LineOf(ArtifactRow(a)) + ['\n'] + LineOf(ArtifactRow(b))
  {
    hide Sort, Join, Show;
    PairRows(a, b);
    var rows := [ArtifactRow(a), ArtifactRow(b)];
    ThreeJoined(a.key, a.sha256, Show(a.bytes), '|');
    ThreeJoined(b.key, b.sha256, Show(b.bytes), '|');
    assert StringLeq(LineOf(rows[0]), LineOf(rows[1]));
    PairOrdered(rows[0], rows[1]);
    SortedStays(rows);
    TwoLines(rows);
  }

  lemma PairRows(a: Artifact, b: Artifact)
    requires ValidArtifact(a) && ValidArtifact(b)
    ensures ArtifactRows([a, b]) == [ArtifactRow(a), ArtifactRow(b)]
  {
    hide ArtifactRow;
    assert [a, b][..1] == [a] && [a][..0] == [];
    assert ArtifactRows([a]) == [] + [ArtifactRow(a)];
    assert ArtifactRows([a, b]) == ArtifactRows([a]) + [ArtifactRow(b)];
  }

  lemma TwoLines(rows: seq<seq<string>>)
    requires |rows| == 2
    ensures Join(Lines(rows), '\n') == LineOf(rows[0]) + ['\n'] + LineOf(rows[1])
  {
    hide LineOf;
    assert Lines(rows)[1..] == [LineOf(rows[1])];
  }

  /** What follows the key in a line. */
  function Rest(digest: string): string {
    "|" + digest + "|1"
  }

  function Early(digest: string): seq<Artifact> {
    [Artifact("x" + Rest(digest) + "\ny", digest, 1), Artifact("z", digest, 1)]
  }

  function Late(digest: string): seq<Artifact> {
    [Artifact("x", digest, 1), Artifact("y" + Rest(digest) + "\nz", digest, 1)]
  }

  lemma BundlesDiffer(digest: string)
    requires Digest(digest)
    ensures Bundle(Early(digest)) && Bundle(Late(digest)) && multiset(Early(digest)) != multiset(Late(digest))
  {
    hide Digest, Rest;
    NotEmpty(digest);
    var early, late := Early(digest), Late(digest);
    assert early[0].key[0] == 'x' && early[1].key[0] == 'z' && late[0].key[0] == 'x' && late[1].key[0] == 'y';
    assert early[1] in multiset(early) && early[1] !in multiset(late);
  }

  /** A line break in a key hides where an artifact ends: two bundles that are both well formed share their text. */
  lemma BreakInKeyConfuses(digest: string)
    requires Digest(digest)
    ensures Bundle(Early(digest)) && Bundle(Late(digest)) && multiset(Early(digest)) != multiset(Late(digest))
    ensures Payload(ArtifactRows(Early(digest))) == Payload(ArtifactRows(Late(digest)))
  {
    hide Payload, ArtifactRows, Digest, Rest, ArtifactRow, LineOf;
    var early, late, rest := Early(digest), Late(digest), Rest(digest);
    BundlesDiffer(digest);
    PairPayload(early[0], early[1]);
    PairPayload(late[0], late[1]);
    LineWith(early[0], rest);
    LineWith(early[1], rest);
    LineWith(late[0], rest);
    LineWith(late[1], rest);
    Regrouped("x", "y", "z", rest);
  }

  lemma Regrouped(x: string, y: string, z: string, rest: string)
    ensures (x + rest + "\n" + y) + rest + ['\n'] + (z + rest) == x + rest + ['\n'] + (y + rest + "\n" + z + rest)
  {
  }

  lemma NotEmpty(digest: string)
    requires Digest(digest)
    ensures digest != ""
  {
  }

  lemma LineWith(a: Artifact, rest: string)
    requires a.Artifact? && a.bytes == 1 && rest == Rest(a.sha256)
    ensures LineOf(ArtifactRow(a)) == a.key + rest
  {
    hide Join;
    assert Show(1) == "1";
    ThreeJoined(a.key, a.sha256, Show(1), '|');
  }

  // ---- elections ----

  /** What the lines of one election year are made of: what precedes the counts, and the two counts. */
  datatype Piece = Head | No | Yes

  /** An election with a date that may hold such pieces itself. */
  datatype Election = Election(year: int, date: string, registered: int, voted: int) {
    predicate Valid() { date != "" && 0 < registered && 0 <= voted <= registered }

    function Text(piece: Piece): string {
      match piece
      case Head => Key(year) + ['|'] + date
      case No => ['|'] + Join(Tail("did_not_vote", registered - voted, registered), '|') + ['\n']
      case Yes => ['|'] + Join(Tail("voted", voted, registered), '|') + ['\n']
    }

    function Spell(word: seq<Piece>): string {
      if word == [] then "" else Text(word[0]) + Spell(word[1..])
    }

    /** The observation whose lines start with the word. */
    function Observed(word: seq<Piece>): Observation
      requires word != []
    {
      Observation(year, date + Spell(word[1..]), registered, voted)
    }

    function AllObserved(words: seq<seq<Piece>>): seq<Observation>
      requires forall i :: 0 <= i < |words| ==> words[i] != []
    {
      seq(|words|, i requires 0 <= i < |words| => Observed(words[i]))
    }
  }

  lemma {:induction false} SpellConcat(e: Election, v: seq<Piece>, w: seq<Piece>)
    ensures e.Spell(v + w) == e.Spell(v) + e.Spell(w)
  {
    hide Election.Text;
    if v == [] {
      assert v + w == w;
    } else {
      SpellConcat(e, v[1..], w);
      assert (v + w)[1..] == v[1..] + w;
      Associates(e.Text(v[0]), e.Spell(v[1..]), e.Spell(w));
    }
  }

  lemma Associates(x: string, y: string, z: string)
    ensures x + (y + z) == x + y + z
  {
  }

  lemma SpellSnoc(e: Election, w: seq<Piece>, piece: Piece)
    ensures e.Spell(w + [piece]) == e.Spell(w) + e.Text(piece)
  {
    SpellConcat(e, w, [piece]);
    assert [piece][1..] == [];
  }

  /** A line with its line break. */
  lemma LineSpells(e: Election, w: seq<Piece>)
    requires w != [] && w[0] == Head
    ensures LineOf(DidNotVoteRow(e.Observed(w))) + ['\n'] == e.Spell(w + [No])
    ensures LineOf(VotedRow(e.Observed(w))) + ['\n'] == e.Spell(w + [Yes])
  {
    hide Tail, Key, Join, Line, Election.Spell;
    LineEnds(e, w, "did_not_vote", e.registered - e.voted, No);
    LineEnds(e, w, "voted", e.voted, Yes);
  }

  lemma LineEnds(e: Election, w: seq<Piece>, option: string, votes: int, piece: Piece)
    requires w != [] && w[0] == Head
    requires e.Text(piece) == ['|'] + Join(Tail(option, votes, e.registered), '|') + ['\n']
    ensures Line(e.year, e.date + e.Spell(w[1..]), option, votes, e.registered) + ['\n'] == e.Spell(w + [piece])
  {
    hide Tail, Key, Join, Line, Election.Text, Election.Spell;
    var date, tail := e.date + e.Spell(w[1..]), Join(Tail(option, votes, e.registered), '|');
    SpellSnoc(e, w, piece);
    LineShape(e.year, date, option, votes, e.registered);
    HeadSpells(e, w);
    Associates(Key(e.year) + ['|'], e.date, e.Spell(w[1..]));
    LineParts(Key(e.year), date, tail);
  }

  lemma HeadSpells(e: Election, w: seq<Piece>)
    requires w != [] && w[0] == Head
    ensures e.Spell(w) == (Key(e.year) + ['|'] + e.date) + e.Spell(w[1..])
  {
    hide Key;
  }

  lemma LineParts(key: string, date: string, tail: string)
    ensures key + ['|'] + (date + ['|'] + tail) + ['\n'] == (key + ['|'] + date) + (['|'] + tail + ['\n'])
  {
  }

  /** Each word twice, once for each count. */
  function Squares(words: seq<seq<Piece>>): seq<Piece> {
    if words == [] then []
    else
      var w := words[|words| - 1];
      Squares(words[..|words| - 1]) + (w + [No] + (w + [Yes]))
  }

  function Terminated(lines: seq<string>): string {
    if lines == [] then "" else Terminated(lines[..|lines| - 1]) + lines[|lines| - 1] + ['\n']
  }

  lemma {:induction false} JoinTerminates(lines: seq<string>)
    requires lines != []
    ensures Join(lines, '\n') + ['\n'] == Terminated(lines)
  {
    var last := |lines| - 1;
    if last > 0 {
      JoinTerminates(lines[..last]);
      JoinSnoc(lines[..last], lines[last]);
      assert lines == lines[..last] + [lines[last]];
    } else {
      assert lines[..0] == [];
    }
  }

  lemma {:induction false} JoinSnoc(lines: seq<string>, line: string)
    requires lines != []
    ensures Join(lines + [line], '\n') == Join(lines, '\n') + ['\n'] + line
  {
    if |lines| > 1 {
      JoinSnoc(lines[1..], line);
      assert (lines + [line])[1..] == lines[1..] + [line];
    } else {
      assert (lines + [line])[1..] == [line];
    }
  }

  predicate Headed(words: seq<seq<Piece>>) {
    forall i :: 0 <= i < |words| ==> words[i] != [] && words[i][0] == Head
  }

  lemma ObservedValid(e: Election, words: seq<seq<Piece>>)
    requires e.Valid() && Headed(words)
    ensures AllValid(e.AllObserved(words))
  {
  }

  /** The lines of the rows, in the order they are appended, spell the squares of the words. */
  lemma {:induction false} RowsSpell(e: Election, words: seq<seq<Piece>>)
    requires e.Valid() && Headed(words) && AllValid(e.AllObserved(words))
    ensures Terminated(Lines(Rows(e.AllObserved(words)))) == e.Spell(Squares(words))
  {
    hide DidNotVoteRow, VotedRow, LineOf;
    var observations := e.AllObserved(words);
    if words == [] {
      assert observations == [];
    } else {
      var last := |words| - 1;
      var init, w := words[..last], words[last];
      assert observations[..last] == e.AllObserved(init);
      RowsSpell(e, init);
      LineSpells(e, w);
      SpellConcat(e, w + [No], w + [Yes]);
      SpellConcat(e, Squares(init), w + [No] + (w + [Yes]));
      TwoMoreLines(Rows(observations[..last]), DidNotVoteRow(observations[last]), VotedRow(observations[last]));
    }
  }

  lemma TwoMoreLines(rows: seq<seq<string>>, r: seq<string>, s: seq<string>)
    ensures Terminated(Lines(rows + [r, s])) ==
            Terminated(Lines(rows)) + ((LineOf(r) + ['\n']) + (LineOf(s) + ['\n']))
  {
    hide LineOf;
    var lines := Lines(rows + [r, s]);
    var n := |rows|;
    assert lines[..n + 1][..n] == Lines(rows);
    assert lines[..n + 1][n] == LineOf(r) && lines[n + 1] == LineOf(s);
  }

  // ---- the order of the rows ----

  /** Every word goes on where the one before it ends. */
  predicate Growing(words: seq<seq<Piece>>) {
    forall i, j :: 0 <= i < j < |words| ==> words[i] < words[j]
  }

  lemma {:induction false} SpellGrows(e: Election, v: seq<Piece>, w: seq<Piece>)
    requires v < w
    ensures e.Spell(v) < e.Spell(w)
  {
    var rest := w[|v|..];
    assert w == v + rest;
    SpellConcat(e, v, rest);
    assert e.Text(rest[0]) != "";
  }

  lemma EarlierDateFirst(r: seq<string>, s: seq<string>)
    requires r != [] && s != [] && r[0] < s[0]
    ensures RowLeq(r, s)
  {
    PrefixLeq(r[0], s[0]);
  }

  lemma RowsOrdered(e: Election, words: seq<seq<Piece>>)
    requires e.Valid() && Headed(words) && Growing(words) && AllValid(e.AllObserved(words))
    ensures Ordered(Rows(e.AllObserved(words)))
  {
    hide RowLeq, Rows, Line, Key;
    var observations := e.AllObserved(words);
    var rows := Rows(observations);
    if words == [] {
      RowsStep(observations);
    } else {
      RowAt(observations, 0);
    }
    forall k, l | 0 <= k <= l < |rows| ensures RowLeq(rows[k], rows[l]) {
      RowsInOrder(e, words, k, l);
    }
  }

  lemma RowsInOrder(e: Election, words: seq<seq<Piece>>, k: nat, l: nat)
    requires e.Valid() && Headed(words) && Growing(words) && AllValid(e.AllObserved(words))
    requires k <= l < |Rows(e.AllObserved(words))| == 2 * |words|
    ensures RowLeq(Rows(e.AllObserved(words))[k], Rows(e.AllObserved(words))[l])
  {
    hide RowLeq, Rows, Line, Key, Election.Spell;
    var observations := e.AllObserved(words);
    var rows := Rows(observations);
    var i, j := k / 2, l / 2;
    RowAt(observations, i);
    RowAt(observations, j);
    if i < j {
      SpellGrows(e, words[i][1..], words[j][1..]);
      EarlierDateFirst(rows[k], rows[l]);
    } else {
      NoBeforeYes(observations[i]);
      RowTotal(rows[k], rows[k]);
    }
  }

  lemma PayloadSpells(e: Election, words: seq<seq<Piece>>)
    requires e.Valid() && Headed(words) && Growing(words) && words != [] && AllValid(e.AllObserved(words))
    ensures Payload(Rows(e.AllObserved(words))) + ['\n'] == e.Spell(Squares(words))
  {
    hide Rows, Sort, Ordered;
    var observations := e.AllObserved(words);
    RowsOrdered(e, words);
    SortedStays(Rows(observations));
    RowAt(observations, 0);
    JoinTerminates(Lines(Rows(observations)));
    RowsSpell(e, words);
  }

  const LONG: seq<Piece> := [Head, No, Head, Yes, Head, No, Head, No, Head, No, Head, Yes, Head]

  const SHORT: seq<seq<Piece>> := [[Head], [Head, No, Head], [Head, No, Head, No, Head, Yes, Head]]

  /** One square is three squares. */
  lemma SquaresAgree()
    ensures Squares([LONG]) == Squares(SHORT)
    ensures Headed([LONG]) && Growing([LONG]) && Headed(SHORT) && Growing(SHORT)
  {
    assert [LONG][..0] == [];
    assert Squares(SHORT[..1]) == [Head, No, Head, Yes] by {
      assert SHORT[..1][..0] == [];
    }
    assert Squares(SHORT[..2]) == [Head, No, Head, Yes] + [Head, No, Head, No, Head, No, Head, Yes] by {
      assert SHORT[..2][..1] == SHORT[..1];
    }
    assert SHORT[..3][..2] == SHORT[..2] && SHORT[..3] == SHORT;
  }

  /** Line breaks in dates hide where an observation ends: three elections of one year share their text with a
      single one. */
  lemma BreakInDateConfuses(e: Election)
    requires e.Valid()
    ensures AllValid(e.AllObserved([LONG])) && AllValid(e.AllObserved(SHORT))
    ensures multiset(e.AllObserved([LONG])) != multiset(e.AllObserved(SHORT))
    ensures Payload(Rows(e.AllObserved([LONG]))) == Payload(Rows(e.AllObserved(SHORT)))
  {
    hide Payload, Rows, Squares, Headed, Growing;
    SquaresAgree();
    ObservedValid(e, [LONG]);
    ObservedValid(e, SHORT);
    PayloadSpells(e, [LONG]);
    PayloadSpells(e, SHORT);
    SameBeforeBreak(Payload(Rows(e.AllObserved([LONG]))), Payload(Rows(e.AllObserved(SHORT))));
    assert |multiset(e.AllObserved([LONG]))| == 1 && |multiset(e.AllObserved(SHORT))| == 3;
  }

  lemma SameBeforeBreak(x: string, y: string)
    requires x + ['\n'] == y + ['\n']
    ensures x == y
  {
    assert x == (x + ['\n'])[..|x|] && y == (y + ['\n'])[..|y|];
    assert |x + ['\n']| == |y + ['\n']|;
  }
}
