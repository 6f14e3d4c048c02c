/** scripts/acquire_comelec_turnout.py: the canonical texts that the two checksums of a manifest are taken of. */
module Payloads {
  import opened Json
  import opened Ordering
  import opened Text

  // ---- election observations ----

  /** An entry of the manifest; `Malformed` has a missing field or one of the wrong type. */
  datatype Observation = Malformed | Observation(year: int, date: string, registered: int, voted: int)

  predicate ValidObservation(o: Observation) {
    o.Observation? && o.date != "" && 0 < o.registered && 0 <= o.voted <= o.registered
  }

  /** What follows the date in a line. */
  function Tail(option: string, votes: int, registered: int): seq<string> {
    ["voter_turnout", "philippines", option, option, Show(votes), Show(registered)]
  }

  function Key(year: int): string {
    "nle_" + Show(year)
  }

  function Line(year: int, date: string, option: string, votes: int, registered: int): string {
    Join([Key(year), date] + Tail(option, votes, registered), '|')
  }

  /** The sort key of a line and the line, as one tuple. */
  function Row(year: int, date: string, option: string, votes: int, registered: int): seq<string> {
    [date, Key(year), "voter_turnout", "philippines", option, Line(year, date, option, votes, registered)]
  }

  function DidNotVoteRow(o: Observation): seq<string>
    requires o.Observation?
  {
    Row(o.year, o.date, "did_not_vote", o.registered - o.voted, o.registered)
  }

  function VotedRow(o: Observation): seq<string>
    requires o.Observation?
  {
    Row(o.year, o.date, "voted", o.voted, o.registered)
  }

  predicate AllValid(observations: seq<Observation>) {
    forall i :: 0 <= i < |observations| ==> ValidObservation(observations[i])
  }

  /** The rows in the order they are appended. */
  function Rows(observations: seq<Observation>): seq<seq<string>>
    requires AllValid(observations)
  {
    if observations == [] then []
    else
      var last := |observations| - 1;
      Rows(observations[..last]) + [DidNotVoteRow(observations[last]), VotedRow(observations[last])]
  }

  /** The line is the last component of its row. */
  function LineOf(row: seq<string>): string {
    if row == [] then "" else row[|row| - 1]
  }

  function Lines(rows: seq<seq<string>>): (lines: seq<string>)
    ensures |lines| == |rows| && forall i :: 0 <= i < |rows| ==> lines[i] == LineOf(rows[i])
  {
    if rows == [] then []
    else
      var last := |rows| - 1;
      Lines(rows[..last]) + [LineOf(rows[last])]
  }

  /** The text a checksum is taken of: the lines in the order of their rows. */
  function Payload(rows: seq<seq<string>>): string {
    Join(Lines(Sort(rows)), '\n')
  }

  /** `_normalized_checksum` up to the hash, which is taken to be injective. */
  method NormalizedPayload(observations: seq<Observation>) returns (payload: Option<string>)
    ensures payload.None? <==> !AllValid(observations)
    ensures payload.Some? ==> payload.value == Payload(Rows(observations))
  {
    hide Row, Sort, Lines;
    var rows: seq<seq<string>> := [];
    for i := 0 to |observations|
      invariant AllValid(observations[..i]) && rows == Rows(observations[..i])
    {
      var o := observations[i];
      assert observations[..i + 1] == observations[..i] + [o];
      if !o.Observation? || o.date == "" {
        return None;
      }
      if o.registered <= 0 || o.voted < 0 || o.voted > o.registered {
        return None;
      }
      rows := rows + [Row(o.year, o.date, "did_not_vote", o.registered - o.voted, o.registered)];
      rows := rows + [Row(o.year, o.date, "voted", o.voted, o.registered)];
    }
    assert observations[..|observations|] == observations;
    return Some(Join(Lines(Sort(rows)), '\n'));
  }

  // ---- reordering ----

  lemma {:induction false} RowsConcat(a: seq<Observation>, b: seq<Observation>)
    requires AllValid(a) && AllValid(b)
    ensures AllValid(a + b) && Rows(a + b) == Rows(a) + Rows(b)
  {
    hide DidNotVoteRow, VotedRow;
    if b == [] {
      assert a + b == a;
    } else {
      var last := |b| - 1;
      RowsConcat(a, b[..last]);
      assert (a + b)[..|a + b| - 1] == a + b[..last];
    }
  }

  /** The rows are the same whatever the order of the observations. */
  lemma {:induction false} RowsForgetOrder(a: seq<Observation>, b: seq<Observation>)
    requires AllValid(a) && AllValid(b) && multiset(a) == multiset(b)
    ensures multiset(Rows(a)) == multiset(Rows(b))
    decreases |a|
  {
    hide DidNotVoteRow, VotedRow, ValidObservation, Rows;
    assert |a| == |multiset(a)| && |b| == |multiset(b)|;
    if a != [] {
      var last := |a| - 1;
      var i := TakenOut(a, b);
      var left, right := b[..i], b[i + 1..];
      RowsForgetOrder(a[..last], left + right);
      RowsConcat(left, right);
      RowsConcat(left, [b[i]]);
      RowsConcat(left + [b[i]], right);
      RowsConcat(a[..last], [b[i]]);
      assert a == a[..last] + [b[i]];
    }
  }

  /** The normalized payload does not depend on the order of the observations. */
  lemma NormalizedForgetsOrder(a: seq<Observation>, b: seq<Observation>)
    requires AllValid(a) && AllValid(b) && multiset(a) == multiset(b)
    ensures Payload(Rows(a)) == Payload(Rows(b))
  {
    hide Rows, Lines, Sort;
    RowsForgetOrder(a, b);
    SortForgetsOrder(Rows(a), Rows(b));
  }

  // ---- reading a line back ----

  lemma ShowIsPlain(n: int)
    ensures '|' !in Show(n) && '\n' !in Show(n)
  {
    hide Decimal;
    var digits := Decimal(if n < 0 then -n else n);
    forall c | c in digits ensures '0' <= c <= '9' {
      var i :| 0 <= i < |digits| && digits[i] == c;
    }
    if n < 0 {
      assert forall c :: c in "-" + digits ==> c == '-' || c in digits;
    }
  }

  predicate IsOption(option: string) {
    option == "voted" || option == "did_not_vote"
  }

  lemma FieldsArePlain(year: int, option: string, votes: int, registered: int)
    requires IsOption(option)
    ensures '|' !in Key(year) && '\n' !in Key(year)
    ensures forall f :: f in Tail(option, votes, registered) ==> '|' !in f && '\n' !in f
  {
    hide Show;
    ShowIsPlain(year);
    ShowIsPlain(votes);
    ShowIsPlain(registered);
  }

  lemma LineShape(year: int, date: string, option: string, votes: int, registered: int)
    ensures Line(year, date, option, votes, registered) ==
            Key(year) + ['|'] + (date + ['|'] + Join(Tail(option, votes, registered), '|'))
  {
    hide Key, Tail;
    TailSize(option, votes, registered);
    JoinTwo(Key(year), date, Tail(option, votes, registered), '|');
  }

  lemma JoinTwo(first: string, second: string, rest: seq<string>, sep: char)
    requires rest != []
    ensures Join([first, second] + rest, sep) == first + [sep] + (second + [sep] + Join(rest, sep))
  {
    assert ([first, second] + rest)[1..] == [second] + rest;
    assert ([second] + rest)[1..] == rest;
  }

  /** A line falls apart into its year, the pieces of its date and its last six fields. */
  lemma LineSplits(year: int, date: string, option: string, votes: int, registered: int)
    requires IsOption(option)
    ensures Split(Line(year, date, option, votes, registered), '|') ==
            [Key(year)] + (Split(date, '|') + Tail(option, votes, registered))
  {
    hide Key, Tail, Split, Join, Line;
    var tail := Tail(option, votes, registered);
    FieldsArePlain(year, option, votes, registered);
    LineShape(year, date, option, votes, registered);
    SplitFirst(Key(year), date + ['|'] + Join(tail, '|'), '|');
    SplitConcat(date, Join(tail, '|'), '|');
    TailSize(option, votes, registered);
    SplitJoin(tail, '|');
  }

  lemma TailSize(option: string, votes: int, registered: int)
    ensures |Tail(option, votes, registered)| == 6
  {
  }

  lemma SameParts(a: string, dates: seq<string>, tail: seq<string>, b: string, otherDates: seq<string>,
                  otherTail: seq<string>)
    requires [a] + (dates + tail) == [b] + (otherDates + otherTail) && |tail| == |otherTail|
    ensures a == b && dates == otherDates && tail == otherTail
  {
    assert ([a] + (dates + tail))[0] == a && ([b] + (otherDates + otherTail))[0] == b;
    assert ([a] + (dates + tail))[1..] == dates + tail;
    assert ([b] + (otherDates + otherTail))[1..] == otherDates + otherTail;
    assert (dates + tail)[..|dates|] == dates && (otherDates + otherTail)[..|otherDates|] == otherDates;
    assert (dates + tail)[|dates|..] == tail && (otherDates + otherTail)[|otherDates|..] == otherTail;
  }

  /** Different entries make different lines, even when dates contain the separator. */
  lemma LineInjective(year: int, date: string, option: string, votes: int, registered: int,
                      year': int, date': string, option': string, votes': int, registered': int)
    requires IsOption(option) && IsOption(option')
    requires Line(year, date, option, votes, registered) == Line(year', date', option', votes', registered')
    ensures year == year' && date == date' && option == option' && votes == votes' && registered == registered'
  {
    hide Key, Tail, Split, Join, Line, IsOption;
    LineSplits(year, date, option, votes, registered);
    LineSplits(year', date', option', votes', registered');
    TailSize(option, votes, registered);
    TailSize(option', votes', registered');
    SameParts(Key(year), Split(date, '|'), Tail(option, votes, registered),
              Key(year'), Split(date', '|'), Tail(option', votes', registered'));
    JoinSplit(date, '|');
    JoinSplit(date', '|');
    KeyInjective(year, year');
    TailInjective(option, votes, registered, option', votes', registered');
  }

  lemma KeyInjective(year: int, year': int)
    requires Key(year) == Key(year')
    ensures year == year'
  {
    hide Show;
    assert Key(year)[4..] == Show(year) && Key(year')[4..] == Show(year');
    ShowInjective(year, year');
  }

  lemma TailInjective(option: string, votes: int, registered: int, option': string, votes': int, registered': int)
    requires Tail(option, votes, registered) == Tail(option', votes', registered')
    ensures option == option' && votes == votes' && registered == registered'
  {
    hide Show;
    var t, t' := Tail(option, votes, registered), Tail(option', votes', registered');
    assert t[3] == option && t'[3] == option';
    assert t[4] == Show(votes) && t'[4] == Show(votes') && t[5] == Show(registered) && t'[5] == Show(registered');
    ShowInjective(votes, votes');
    ShowInjective(registered, registered');
  }

  // ---- what the normalized payload determines ----

  /** A row built from an entry whose date has no line break. */
  ghost predicate IsRow(row: seq<string>) {
    exists year, date, option, votes, registered ::
      '\n' !in date && IsOption(option) && row == Row(year, date, option, votes, registered)
  }

  predicate DatesOnOneLine(observations: seq<Observation>) {
    forall i :: 0 <= i < |observations| && observations[i].Observation? ==> '\n' !in observations[i].date
  }

  lemma {:induction false} RowsAreRows(observations: seq<Observation>)
    requires AllValid(observations) && DatesOnOneLine(observations)
    ensures forall row :: row in Rows(observations) ==> IsRow(row)
  {
    hide Row;
    if observations != [] {
      var last := |observations| - 1;
      var o := observations[last];
      RowsAreRows(observations[..last]);
      assert IsRow(DidNotVoteRow(o));
      assert IsRow(VotedRow(o));
    }
  }

  /** Within such rows the line determines the row. */
  lemma RowByLine(r: seq<string>, s: seq<string>)
    requires IsRow(r) && IsRow(s) && LineOf(r) == LineOf(s)
    ensures r == s
  {
    hide Line, IsOption;
    var year, date, option, votes, registered :|
      '\n' !in date && IsOption(option) && r == Row(year, date, option, votes, registered);
    var year', date', option', votes', registered' :|
      '\n' !in date' && IsOption(option') && s == Row(year', date', option', votes', registered');
    LineInjective(year, date, option, votes, registered, year', date', option', votes', registered');
  }

  lemma LineIsOneLine(row: seq<string>)
    requires IsRow(row)
    ensures '\n' !in LineOf(row) && LineOf(row) != ""
  {
    hide Key, Tail, Join, IsOption, Line;
    var year, date, option, votes, registered :|
      '\n' !in date && IsOption(option) && row == Row(year, date, option, votes, registered);
    var tail := Tail(option, votes, registered);
    FieldsArePlain(year, option, votes, registered);
    LineShape(year, date, option, votes, registered);
    TailSize(option, votes, registered);
    JoinKeepsOut(tail, '|', '\n');
  }

  lemma {:induction false} JoinKeepsOut(parts: seq<string>, sep: char, c: char)
    requires c != sep && forall p :: p in parts ==> c !in p
    ensures c !in Join(parts, sep)
  {
    if |parts| > 1 {
      JoinKeepsOut(parts[1..], sep, c);
    }
  }

  /** The lines of a payload. */
  function Unjoined(payload: string): seq<string> {
    if payload == "" then [] else Split(payload, '\n')
  }

  lemma JoinIsReadable(lines: seq<string>)
    requires forall l :: l in lines ==> '\n' !in l && l != ""
    ensures Unjoined(Join(lines, '\n')) == lines
  {
    if lines != [] {
      SplitJoin(lines, '\n');
      assert lines[0] in lines;
    }
  }

  lemma PayloadIsReadable(rows: seq<seq<string>>)
    requires forall row :: row in rows ==> IsRow(row)
    ensures Unjoined(Payload(rows)) == Lines(Sort(rows))
    ensures forall i :: 0 <= i < |Sort(rows)| ==> IsRow(Sort(rows)[i])
  {
    hide IsRow, Sort, LineOf;
    var sorted := Sort(rows);
    forall i | 0 <= i < |sorted| ensures IsRow(sorted[i]) {
      assert sorted[i] in multiset(sorted);
    }
    forall row | row in rows ensures '\n' !in LineOf(row) && LineOf(row) != "" {
      LineIsOneLine(row);
    }
    OneLineRowsReadable(rows);
  }

  lemma PayloadDeterminesRows(a: seq<seq<string>>, b: seq<seq<string>>)
    requires (forall row :: row in a ==> IsRow(row)) && (forall row :: row in b ==> IsRow(row))
    requires Payload(a) == Payload(b)
    ensures multiset(a) == multiset(b)
  {
    hide IsRow, Sort, LineOf, Payload, Unjoined;
    PayloadIsReadable(a);
    PayloadIsReadable(b);
    assert Lines(Sort(a)) == Lines(Sort(b));
    forall i | 0 <= i < |Sort(a)| ensures Sort(a)[i] == Sort(b)[i] {
      assert Lines(Sort(a))[i] == Lines(Sort(b))[i];
      RowByLine(Sort(a)[i], Sort(b)[i]);
    }
    assert Sort(a) == Sort(b);
  }

  lemma VotedRowsDiffer(o: Observation, x: Observation)
    requires o.Observation? && x.Observation?
    ensures DidNotVoteRow(o) != VotedRow(x) && (VotedRow(o) == VotedRow(x) ==> o == x)
  {
    hide Line;
    assert DidNotVoteRow(o)[4] == "did_not_vote" && VotedRow(x)[4] == "voted";
    if VotedRow(o) == VotedRow(x) {
      assert VotedRow(o)[5] == VotedRow(x)[5];
      LineInjective(o.year, o.date, "voted", o.voted, o.registered, x.year, x.date, "voted", x.voted, x.registered);
    }
  }

  lemma PairCount<T>(p: T, q: T, r: T)
    ensures multiset([p, q])[r] == (if p == r then 1 else 0) + (if q == r then 1 else 0)
  {
    assert [p, q] == [p] + [q];
  }

  /** Each observation can be counted by its row of votes cast. */
  lemma {:induction false} VotedRowCounts(observations: seq<Observation>, x: Observation)
    requires AllValid(observations) && x.Observation?
    ensures multiset(Rows(observations))[VotedRow(x)] == multiset(observations)[x]
  {
    hide DidNotVoteRow, VotedRow, Rows;
    if observations == [] {
      RowsStep(observations);
    } else {
      var last := |observations| - 1;
      var o := observations[last];
      VotedRowCounts(observations[..last], x);
      VotedRowsDiffer(o, x);
      RowsStep(observations);
      PairCount(DidNotVoteRow(o), VotedRow(o), VotedRow(x));
      assert observations == observations[..last] + [o];
      assert multiset(observations) == multiset(observations[..last]) + multiset{o};
    }
  }

  lemma RowsStep(observations: seq<Observation>)
    requires AllValid(observations)
    ensures if observations == [] then Rows(observations) == []
            else
              var last := |observations| - 1;
              Rows(observations) ==
              Rows(observations[..last]) + [DidNotVoteRow(observations[last]), VotedRow(observations[last])]
  {
    hide DidNotVoteRow, VotedRow;
  }

  /** The normalized payload determines the elections and their counts, with repetition: only a line break in a date
      could confuse two manifests. */
  lemma NormalizedDetermines(a: seq<Observation>, b: seq<Observation>)
    requires AllValid(a) && AllValid(b) && DatesOnOneLine(a) && DatesOnOneLine(b)
    requires Payload(Rows(a)) == Payload(Rows(b))
    ensures multiset(a) == multiset(b)
  {
    hide Rows, Payload, VotedRow, IsRow;
    RowsAreRows(a);
    RowsAreRows(b);
    PayloadDeterminesRows(Rows(a), Rows(b));
    forall x ensures multiset(a)[x] == multiset(b)[x] {
      if x.Observation? {
        VotedRowCounts(a, x);
        VotedRowCounts(b, x);
      }
    }
  }

  /** Each election's two lines can be read back from the payload, and the votes they show add up to the registered
      voters that both show. */
  lemma TurnoutAddsUp(observations: seq<Observation>, o: Observation)
    requires AllValid(observations) && DatesOnOneLine(observations) && o in observations
    ensures var didNotVote := LineOf(DidNotVoteRow(o)); var voted := LineOf(VotedRow(o));
            && didNotVote in Unjoined(Payload(Rows(observations)))
            && voted in Unjoined(Payload(Rows(observations)))
            && VotesShown(didNotVote) + VotesShown(voted) == VotersShown(didNotVote) == VotersShown(voted)
            && VotesShown(voted) == o.voted && VotersShown(voted) == o.registered
  {
    hide Rows, Payload, Unjoined, LineOf, DidNotVoteRow, VotedRow, VotesShown, VotersShown, IsRow;
    RowsAreRows(observations);
    PayloadIsReadable(Rows(observations));
    RowsOfElement(observations, o);
    RowIsSorted(Rows(observations), DidNotVoteRow(o));
    RowIsSorted(Rows(observations), VotedRow(o));
    CountsShown(o);
  }

  /** The last two fields of a line, read as numbers. */
  function VotesShown(line: string): nat {
    var fields := LastFields(line);
    if |fields| == 2 && AllDigits(fields[0]) then DigitsValue(fields[0]) else 0
  }

  function VotersShown(line: string): nat {
    var fields := LastFields(line);
    if |fields| == 2 && AllDigits(fields[1]) then DigitsValue(fields[1]) else 0
  }

  lemma CountsShown(o: Observation)
    requires ValidObservation(o)
    ensures VotesShown(LineOf(DidNotVoteRow(o))) == o.registered - o.voted
    ensures VotesShown(LineOf(VotedRow(o))) == o.voted
    ensures VotersShown(LineOf(DidNotVoteRow(o))) == VotersShown(LineOf(VotedRow(o))) == o.registered
  {
    hide LastFields, Line, DigitsValue, Decimal;
    LastFieldsOfLine(o.year, o.date, "did_not_vote", o.registered - o.voted, o.registered);
    LastFieldsOfLine(o.year, o.date, "voted", o.voted, o.registered);
    DecimalRoundTrip(o.registered - o.voted);
    DecimalRoundTrip(o.voted);
    DecimalRoundTrip(o.registered);
  }

  /** The votes and the registered voters of a line, as it shows them. */
  function LastFields(line: string): seq<string> {
    var fields := Split(line, '|');
    if |fields| < 2 then [] else fields[|fields| - 2..]
  }

  lemma LastFieldsOfLine(year: int, date: string, option: string, votes: int, registered: int)
    requires IsOption(option)
    ensures LastFields(Line(year, date, option, votes, registered)) == [Show(votes), Show(registered)]
  {
    hide Key, Split, Line, Show;
    LineSplits(year, date, option, votes, registered);
    var tail := Tail(option, votes, registered);
    var head := [Key(year)] + Split(date, '|');
    assert [Key(year)] + (Split(date, '|') + tail) == head + tail;
    assert (head + tail)[|head + tail| - 2..] == tail[4..];
  }

  lemma {:induction false} RowsOfElement(observations: seq<Observation>, o: Observation)
    requires AllValid(observations) && o in observations
    ensures DidNotVoteRow(o) in Rows(observations) && VotedRow(o) in Rows(observations)
  {
    hide DidNotVoteRow, VotedRow;
    var last := |observations| - 1;
    RowsStep(observations);
    if observations[last] == o {
      assert [DidNotVoteRow(o), VotedRow(o)][0] == DidNotVoteRow(o);
      assert [DidNotVoteRow(o), VotedRow(o)][1] == VotedRow(o);
    } else {
      assert o in observations[..last];
      RowsOfElement(observations[..last], o);
    }
  }

  lemma RowIsSorted(rows: seq<seq<string>>, row: seq<string>)
    requires row in rows
    ensures LineOf(row) in Lines(Sort(rows))
  {
    hide LineOf, Lines, Sort;
    assert row in multiset(Sort(rows));
    var i :| 0 <= i < |Sort(rows)| && Sort(rows)[i] == row;
    assert Lines(Sort(rows))[i] == LineOf(row);
  }

  // ---- the text of a payload ----

  lemma {:induction false} RowAt(observations: seq<Observation>, i: nat)
    requires AllValid(observations) && i < |observations|
    ensures |Rows(observations)| == 2 * |observations|
    ensures Rows(observations)[2 * i] == DidNotVoteRow(observations[i])
    ensures Rows(observations)[2 * i + 1] == VotedRow(observations[i])
  {
    hide DidNotVoteRow, VotedRow;
    var last := |observations| - 1;
    if last > 0 {
      RowAt(observations[..last], if i < last then i else 0);
    }
  }

  lemma NoBeforeYes(o: Observation)
    requires o.Observation?
    ensures RowLeq(DidNotVoteRow(o), VotedRow(o))
  {
    hide Line, Key;
    var r, s := DidNotVoteRow(o), VotedRow(o);
    assert r[4] == "did_not_vote" && s[4] == "voted";
    assert DifferAt(r, s, 4);
    RowDecided(r, s, 4);
  }

  /** A line, piece by piece. */
  function Written(o: Observation, option: string, votes: int): string
    requires o.Observation?
  {
    "nle_" + Show(o.year) + "|" + o.date + "|" + "voter_turnout" + "|" + "philippines" + "|" + option + "|" + option
    + "|" + Show(votes) + "|" + Show(o.registered)
  }

  lemma LineText(o: Observation, option: string, votes: int)
    requires o.Observation?
    ensures Line(o.year, o.date, option, votes, o.registered) == Written(o, option, votes)
  {
    hide Show, Line, Join;
    LineShape(o.year, o.date, option, votes, o.registered);
    SixJoined("voter_turnout", "philippines", option, option, Show(votes), Show(o.registered), '|');
  }

  lemma JoinedOn(part: string, rest: seq<string>, sep: char)
    requires rest != []
    ensures Join([part] + rest, sep) == part + [sep] + Join(rest, sep)
  {
    assert ([part] + rest)[1..] == rest;
  }

  lemma SixJoined(a: string, b: string, c: string, d: string, e: string, f: string, sep: char)
    ensures Join([a, b, c, d, e, f], sep) ==
            a + [sep] + (b + [sep] + (c + [sep] + (d + [sep] + (e + [sep] + f))))
  {
    hide Join;
    ThreeJoined(d, e, f, sep);
    JoinedOn(c, [d, e, f], sep);
    JoinedOn(b, [c, d, e, f], sep);
    JoinedOn(a, [b, c, d, e, f], sep);
    assert [c] + [d, e, f] == [c, d, e, f];
    assert [b] + [c, d, e, f] == [b, c, d, e, f];
    assert [a] + [b, c, d, e, f] == [a, b, c, d, e, f];
  }

  /** One election precedes another: by its date, and on the same day by its key, both as text. */
  predicate Precedes(o: Observation, x: Observation)
    requires o.Observation? && x.Observation?
  {
    if o.date != x.date then StringLeq(o.date, x.date)
    else "nle_" + Show(o.year) != "nle_" + Show(x.year) && StringLeq("nle_" + Show(o.year), "nle_" + Show(x.year))
  }

  predicate InOrder(observations: seq<Observation>)
    requires AllValid(observations)
  {
    forall i, j :: 0 <= i < j < |observations| ==> Precedes(observations[i], observations[j])
  }

  /** Elections in order give rows in order. */
  lemma RowsFollow(observations: seq<Observation>)
    requires AllValid(observations) && InOrder(observations)
    ensures Ordered(Rows(observations))
  {
    hide Rows, RowLeq, Precedes, InOrder, DidNotVoteRow, VotedRow, ValidObservation;
    var rows := Rows(observations);
    RowsSize(observations);
    forall k, l | 0 <= k <= l < |rows| ensures RowLeq(rows[k], rows[l]) {
      RowsFollowAt(observations, k, l);
    }
  }

  lemma RowsFollowAt(observations: seq<Observation>, k: nat, l: nat)
    requires AllValid(observations) && InOrder(observations) && k <= l < 2 * |observations| == |Rows(observations)|
    ensures RowLeq(Rows(observations)[k], Rows(observations)[l])
  {
    hide Rows, RowLeq, Precedes, DidNotVoteRow, VotedRow;
    var i, j := k / 2, l / 2;
    var r, s := Rows(observations)[k], Rows(observations)[l];
    RowAt(observations, i);
    RowAt(observations, j);
    if i < j {
      assert Precedes(observations[i], observations[j]);
      RowsPrecede(observations[i], observations[j], r, s);
    } else {
      RowTotal(r, r);
      NoBeforeYes(observations[i]);
    }
  }

  lemma RowsPrecede(o: Observation, x: Observation, r: seq<string>, s: seq<string>)
    requires o.Observation? && x.Observation? && Precedes(o, x)
    requires r in [DidNotVoteRow(o), VotedRow(o)] && s in [DidNotVoteRow(x), VotedRow(x)]
    ensures RowLeq(r, s)
  {
    hide Line, RowLeq, StringLeq, Show;
    var n := if o.date != x.date then 0 else 1;
    assert r[..n] == s[..n];
    RowDecided(r, s, n);
  }

  /** The text of a payload: the elections by date and key, each with the line of those who did not vote and then the
      line of those who did. */
  lemma NormalizedText(observations: seq<Observation>, ordered: seq<Observation>) returns (lines: seq<string>)
    requires AllValid(observations) && AllValid(ordered) && multiset(observations) == multiset(ordered)
    requires InOrder(ordered)
    ensures Payload(Rows(observations)) == Join(lines, '\n') && |lines| == 2 * |ordered|
    ensures forall i :: 0 <= i < |ordered| ==>
              var o := ordered[i];
              && lines[2 * i] == Written(o, "did_not_vote", o.registered - o.voted)
              && lines[2 * i + 1] == Written(o, "voted", o.voted)
  {
    hide Rows, Written, Sort, Line, InOrder, Ordered, LineOf;
    NormalizedForgetsOrder(observations, ordered);
    RowsFollow(ordered);
    SortedStays(Rows(ordered));
    lines := Lines(Rows(ordered));
    RowsSize(ordered);
    forall i | 0 <= i < |ordered| ensures TwoLinesAt(lines, i, ordered[i]) {
      LinesAt(ordered, i);
    }
  }

  /** The two lines of the election at this place. */
  predicate TwoLinesAt(lines: seq<string>, i: nat, o: Observation)
    requires o.Observation?
  {
    && 2 * i + 1 < |lines|
    && lines[2 * i] == Written(o, "did_not_vote", o.registered - o.voted)
    && lines[2 * i + 1] == Written(o, "voted", o.voted)
  }

  lemma LinesAt(observations: seq<Observation>, i: nat)
    requires AllValid(observations) && i < |observations|
    ensures TwoLinesAt(Lines(Rows(observations)), i, observations[i])
  {
    hide Rows, Written, LineOf, DidNotVoteRow, VotedRow, TwoLinesAt;
    RowAt(observations, i);
    TwoLinesWritten(Lines(Rows(observations)), i, observations[i]);
  }

  lemma TwoLinesWritten(lines: seq<string>, i: nat, o: Observation)
    requires o.Observation? && 2 * i + 1 < |lines|
    requires lines[2 * i] == LineOf(DidNotVoteRow(o)) && lines[2 * i + 1] == LineOf(VotedRow(o))
    ensures TwoLinesAt(lines, i, o)
  {
    hide Written, LineOf, DidNotVoteRow, VotedRow;
    RowsWritten(o);
  }

  lemma RowsWritten(o: Observation)
    requires o.Observation?
    ensures LineOf(DidNotVoteRow(o)) == Written(o, "did_not_vote", o.registered - o.voted)
    ensures LineOf(VotedRow(o)) == Written(o, "voted", o.voted)
  {
    hide Line, Key, Written;
    LineText(o, "did_not_vote", o.registered - o.voted);
    LineText(o, "voted", o.voted);
  }

  lemma {:induction false} RowsSize(observations: seq<Observation>)
    requires AllValid(observations)
    ensures |Rows(observations)| == 2 * |observations|
  {
    hide DidNotVoteRow, VotedRow;
    if observations != [] {
      RowsSize(observations[..|observations| - 1]);
    }
  }

  // ---- source artifacts ----

  datatype Artifact = Unreadable | Artifact(key: string, sha256: string, bytes: int)

  predicate ValidArtifact(a: Artifact) {
    a.Artifact? && a.key != "" && a.sha256 != ""
  }

  predicate AllReadable(artifacts: seq<Artifact>) {
    forall i :: 0 <= i < |artifacts| ==> ValidArtifact(artifacts[i])
  }

  function ArtifactRow(a: Artifact): seq<string>
    requires a.Artifact?
  {
    [Join([a.key, a.sha256, Show(a.bytes)], '|')]
  }

  function ArtifactRows(artifacts: seq<Artifact>): seq<seq<string>>
    requires AllReadable(artifacts)
  {
    if artifacts == [] then []
    else
      var last := |artifacts| - 1;
      ArtifactRows(artifacts[..last]) + [ArtifactRow(artifacts[last])]
  }

  /** `_source_bundle_checksum` up to the hash. */
  method SourceBundlePayload(artifacts: seq<Artifact>) returns (payload: Option<string>)
    ensures payload.None? <==> !AllReadable(artifacts)
    ensures payload.Some? ==> payload.value == Payload(ArtifactRows(artifacts))
  {
    hide Sort, Lines;
    var rows: seq<seq<string>> := [];
    for i := 0 to |artifacts|
      invariant AllReadable(artifacts[..i]) && rows == ArtifactRows(artifacts[..i])
    {
      var a := artifacts[i];
      assert artifacts[..i + 1] == artifacts[..i] + [a];
      if !a.Artifact? || a.key == "" || a.sha256 == "" {
        return None;
      }
      rows := rows + [[Join([a.key, a.sha256, Show(a.bytes)], '|')]];
    }
    assert artifacts[..|artifacts|] == artifacts;
    return Some(Join(Lines(Sort(rows)), '\n'));
  }

  lemma {:induction false} ArtifactRowsConcat(a: seq<Artifact>, b: seq<Artifact>)
    requires AllReadable(a) && AllReadable(b)
    ensures AllReadable(a + b) && ArtifactRows(a + b) == ArtifactRows(a) + ArtifactRows(b)
  {
    hide ArtifactRow;
    if b == [] {
      assert a + b == a;
    } else {
      var last := |b| - 1;
      ArtifactRowsConcat(a, b[..last]);
      assert (a + b)[..|a + b| - 1] == a + b[..last];
    }
  }

  lemma {:induction false} ArtifactRowsForgetOrder(a: seq<Artifact>, b: seq<Artifact>)
    requires AllReadable(a) && AllReadable(b) && multiset(a) == multiset(b)
    ensures multiset(ArtifactRows(a)) == multiset(ArtifactRows(b))
    decreases |a|
  {
    hide ArtifactRow, ValidArtifact, ArtifactRows;
    assert |a| == |multiset(a)| && |b| == |multiset(b)|;
    if a != [] {
      var last := |a| - 1;
      var i := TakenOut(a, b);
      var left, right := b[..i], b[i + 1..];
      ArtifactRowsForgetOrder(a[..last], left + right);
      ArtifactRowsConcat(left, right);
      ArtifactRowsConcat(left, [b[i]]);
      ArtifactRowsConcat(left + [b[i]], right);
      ArtifactRowsConcat(a[..last], [b[i]]);
      assert a == a[..last] + [b[i]];
    }
  }

  /** The source bundle payload does not depend on the order of the artifacts. */
  lemma SourceBundleForgetsOrder(a: seq<Artifact>, b: seq<Artifact>)
    requires AllReadable(a) && AllReadable(b) && multiset(a) == multiset(b)
    ensures Payload(ArtifactRows(a)) == Payload(ArtifactRows(b))
  {
    hide ArtifactRows, Lines, Sort;
    ArtifactRowsForgetOrder(a, b);
    SortForgetsOrder(ArtifactRows(a), ArtifactRows(b));
  }

  lemma ThreeJoined(a: string, b: string, c: string, sep: char)
    ensures Join([a, b, c], sep) == a + [sep] + b + [sep] + c
  {
    assert [a, b] + [c] == [a, b, c];
    JoinTwo(a, b, [c], sep);
    assert a + [sep] + (b + [sep] + c) == a + [sep] + b + [sep] + c;
  }

  /** What keeps bundles apart: keys on one line, and digests without the separator, as hexadecimal ones are. */
  predicate Separable(artifacts: seq<Artifact>) {
    forall i :: 0 <= i < |artifacts| ==>
      artifacts[i].Artifact? && '\n' !in artifacts[i].key && '|' !in artifacts[i].sha256 && '\n' !in artifacts[i].sha256
  }

  lemma ArtifactLineSplits(a: Artifact)
    requires a.Artifact? && '|' !in a.sha256
    ensures Split(LineOf(ArtifactRow(a)), '|') == Split(a.key, '|') + [a.sha256, Show(a.bytes)]
  {
    hide Split, Show, Join;
    ThreeJoined(a.key, a.sha256, Show(a.bytes), '|');
    ShowIsPlain(a.bytes);
    assert a.key + ['|'] + a.sha256 + ['|'] + Show(a.bytes) == a.key + ['|'] + (a.sha256 + ['|'] + Show(a.bytes));
    SplitConcat(a.key, a.sha256 + ['|'] + Show(a.bytes), '|');
    SplitFirst(a.sha256, Show(a.bytes), '|');
    SplitWhole(Show(a.bytes), '|');
    assert [a.sha256] + [Show(a.bytes)] == [a.sha256, Show(a.bytes)];
  }

  lemma ArtifactRowInjective(a: Artifact, b: Artifact)
    requires a.Artifact? && b.Artifact? && '|' !in a.sha256 && '|' !in b.sha256
    requires ArtifactRow(a) == ArtifactRow(b)
    ensures a == b
  {
    hide Split, Show, Join, ArtifactRow;
    ArtifactLineSplits(a);
    ArtifactLineSplits(b);
    SameEnds(Split(a.key, '|'), [a.sha256, Show(a.bytes)], Split(b.key, '|'), [b.sha256, Show(b.bytes)]);
    JoinSplit(a.key, '|');
    JoinSplit(b.key, '|');
    ShowInjective(a.bytes, b.bytes);
  }

  lemma SameEnds(s: seq<string>, t: seq<string>, s': seq<string>, t': seq<string>)
    requires s + t == s' + t' && |t| == |t'| == 2
    ensures s == s' && t[0] == t'[0] && t[1] == t'[1]
  {
    assert (s + t)[..|s|] == s && (s' + t')[..|s'|] == s';
    assert (s + t)[|s|..] == t && (s' + t')[|s'|..] == t';
  }

  lemma {:induction false} ArtifactRowCounts(artifacts: seq<Artifact>, x: Artifact)
    requires AllReadable(artifacts) && Separable(artifacts) && x.Artifact? && '|' !in x.sha256
    ensures multiset(ArtifactRows(artifacts))[ArtifactRow(x)] == multiset(artifacts)[x]
  {
    hide ArtifactRow;
    if artifacts != [] {
      var last := |artifacts| - 1;
      var a := artifacts[last];
      ArtifactRowCounts(artifacts[..last], x);
      if ArtifactRow(a) == ArtifactRow(x) {
        ArtifactRowInjective(a, x);
      }
      assert artifacts == artifacts[..last] + [a];
      assert multiset(artifacts) == multiset(artifacts[..last]) + multiset{a};
    }
  }

  lemma {:induction false} ArtifactRowsOnOneLine(artifacts: seq<Artifact>)
    requires AllReadable(artifacts) && Separable(artifacts)
    ensures forall row :: row in ArtifactRows(artifacts) ==>
                            |row| == 1 && '\n' !in LineOf(row) && LineOf(row) != ""
  {
    hide ArtifactRow;
    if artifacts != [] {
      ArtifactRowsOnOneLine(artifacts[..|artifacts| - 1]);
      ArtifactOnOneLine(artifacts[|artifacts| - 1]);
    }
  }

  lemma ArtifactOnOneLine(a: Artifact)
    requires a.Artifact? && '\n' !in a.key && '\n' !in a.sha256
    ensures |ArtifactRow(a)| == 1 && '\n' !in LineOf(ArtifactRow(a)) && LineOf(ArtifactRow(a)) != ""
  {
    hide Show, Join;
    ShowIsPlain(a.bytes);
    ThreeJoined(a.key, a.sha256, Show(a.bytes), '|');
  }

  /** The source bundle payload determines the artifacts, with repetition. */
  lemma SourceBundleDetermines(a: seq<Artifact>, b: seq<Artifact>)
    requires AllReadable(a) && AllReadable(b) && Separable(a) && Separable(b)
    requires Payload(ArtifactRows(a)) == Payload(ArtifactRows(b))
    ensures multiset(a) == multiset(b)
  {
    hide ArtifactRows, Payload, ArtifactRow;
    ArtifactRowsOnOneLine(a);
    ArtifactRowsOnOneLine(b);
    OneLineRowsDetermined(ArtifactRows(a), ArtifactRows(b));
    forall x ensures multiset(a)[x] == multiset(b)[x] {
      if x.Artifact? && '|' !in x.sha256 {
        ArtifactRowCounts(a, x);
        ArtifactRowCounts(b, x);
      }
    }
  }

  lemma OneLineRowsDetermined(a: seq<seq<string>>, b: seq<seq<string>>)
    requires forall row :: row in a ==> |row| == 1 && '\n' !in LineOf(row) && LineOf(row) != ""
    requires forall row :: row in b ==> |row| == 1 && '\n' !in LineOf(row) && LineOf(row) != ""
    requires Payload(a) == Payload(b)
    ensures multiset(a) == multiset(b)
  {
    hide Unjoined, Sort, LineOf, Payload;
    OneLineRowsReadable(a);
    OneLineRowsReadable(b);
    assert Lines(Sort(a)) == Lines(Sort(b));
    forall i | 0 <= i < |Sort(a)| ensures Sort(a)[i] == Sort(b)[i] {
      assert Lines(Sort(a))[i] == Lines(Sort(b))[i];
      assert Sort(a)[i] in multiset(Sort(a)) && Sort(b)[i] in multiset(Sort(b));
      RowOfOne(Sort(a)[i]);
      RowOfOne(Sort(b)[i]);
    }
    assert Sort(a) == Sort(b);
  }

  lemma RowOfOne(row: seq<string>)
    requires |row| == 1
    ensures row == [LineOf(row)]
  {
  }

  lemma OneLineRowsReadable(rows: seq<seq<string>>)
    requires forall row :: row in rows ==> '\n' !in LineOf(row) && LineOf(row) != ""
    ensures Unjoined(Payload(rows)) == Lines(Sort(rows))
  {
    hide Unjoined, Sort, LineOf;
    var sorted := Sort(rows);
    forall l | l in Lines(sorted) ensures '\n' !in l && l != "" {
      var i :| 0 <= i < |sorted| && Lines(sorted)[i] == l;
      assert sorted[i] in multiset(sorted);
    }
    JoinIsReadable(Lines(sorted));
  }
}
