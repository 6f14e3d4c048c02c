/** scripts/verify_p2_e2e.py: the loop that takes sensitive values out of the service logs. */
module Redaction {
  import opened Text

  const MARK: string := "[REDACTED]"

  const MINIMUM_LENGTH: nat := 8

  predicate LongestFirst(values: seq<string>) {
    forall i, j :: 0 <= i <= j < |values| ==> |values[i]| >= |values[j]|
  }

  /** A value laid over the mark, `d` places after its start, agrees with it wherever the two overlap. */
  predicate AgreesAt(value: string, d: int) {
    -|value| < d < |MARK| && forall k :: 0 <= k < |value| && 0 <= d + k < |MARK| ==> value[k] == MARK[d + k]
  }

  /** Text with the mark in it can complete an occurrence of the value. */
  ghost predicate CanMeetMark(value: string) {
    exists d :: AgreesAt(value, d)
  }

  /** The condition on a value that is easy to check: no brackets, and not the word inside the mark. */
  predicate Plain(value: string) {
    '[' !in value && ']' !in value && value != "REDACTED"
  }

  lemma PlainNeverMeetsMark(value: string)
    requires Plain(value) && |value| >= MINIMUM_LENGTH
    ensures !CanMeetMark(value)
  {
    hide AgreesAt;
    forall d ensures !AgreesAt(value, d) {
      if AgreesAt(value, d) {
        AgreementShowsBrackets(value, d);
      }
    }
  }

  /** Whatever agrees with the mark covers one of its brackets or is the word between them. */
  lemma AgreementShowsBrackets(value: string, d: int)
    requires AgreesAt(value, d) && |value| >= MINIMUM_LENGTH
    ensures '[' in value || ']' in value || value == "REDACTED"
  {
    if d <= 0 {
      assert value[-d] == MARK[d + -d];
    } else if d + |value| >= |MARK| {
      assert value[9 - d] == MARK[d + (9 - d)];
    } else {
      assert d == 1 && |value| == 8;
      forall k | 0 <= k < 8 ensures value[k] == "REDACTED"[k] {
        assert value[k] == MARK[d + k];
      }
      assert value == "REDACTED";
    }
  }

  lemma OverlapAgrees(value: string, before: string, after: string, i: int)
    requires OccursAt(value, before + MARK + after, i) && -|value| < i - |before| < |MARK|
    ensures AgreesAt(value, i - |before|)
  {
    var whole, d := before + MARK + after, i - |before|;
    forall k | 0 <= k < |value| && 0 <= d + k < |MARK| ensures value[k] == MARK[d + k] {
      assert whole[i..i + |value|][k] == whole[i + k];
    }
  }

  /** An occurrence next to a mark is wholly before it or wholly after it. */
  lemma ApartFromMark(value: string, before: string, after: string, i: int)
    requires !CanMeetMark(value) && OccursAt(value, before + MARK + after, i)
    ensures i + |value| <= |before| || i >= |before| + |MARK|
  {
    hide AgreesAt, OccursAt;
    if -|value| < i - |before| < |MARK| {
      OverlapAgrees(value, before, after, i);
    }
  }

  /** Whether a value occurs within the first part does not depend on what follows. */
  lemma OccursBefore(value: string, before: string, s: string, t: string, i: int)
    requires i + |value| <= |before|
    ensures OccursAt(value, before + s, i) <==> OccursAt(value, before + t, i)
  {
    if 0 <= i {
      assert (before + s)[i..i + |value|] == (before + t)[i..i + |value|];
    }
  }

  lemma OccursAfter(value: string, before: string, s: string, i: int)
    requires i >= |before|
    ensures OccursAt(value, before + s, i) <==> OccursAt(value, s, i - |before|)
  {
    if i + |value| <= |before + s| {
      assert (before + s)[i..i + |value|] == s[i - |before|..i - |before| + |value|];
    }
  }

  /** A pass for one value creates no occurrence of another. `before` is text the pass has left alone. */
  lemma {:induction false} NothingNew(value: string, before: string, s: string, from: string, i: int)
    requires from != "" && value != "" && !CanMeetMark(value)
    requires OccursAt(value, before + Replace(s, from, MARK), i)
    ensures Occurs(value, before + s)
    decreases |s|
  {
    hide CanMeetMark, OccursAt;
    if s == "" {
      FoundAt(value, before + s, i);
    } else if StartsWith(s, from) {
      var rest := s[|from|..];
      var tail := Replace(rest, from, MARK);
      assert before + (MARK + tail) == before + MARK + tail;
      ApartFromMark(value, before, tail, i);
      if i + |value| <= |before| {
        OccursBefore(value, before, MARK + tail, s, i);
        FoundAt(value, before + s, i);
      } else {
        OccursAfter(value, before + MARK, tail, i);
        assert "" + tail == tail && "" + rest == rest;
        NothingNew(value, "", rest, from, i - |before + MARK|);
        assert before + from + rest == before + s;
        FoundAfter(value, before + from, rest);
      }
    } else {
      assert before + ([s[0]] + Replace(s[1..], from, MARK)) == before + [s[0]] + Replace(s[1..], from, MARK);
      NothingNew(value, before + [s[0]], s[1..], from, i);
      assert before + [s[0]] + s[1..] == before + s;
    }
  }

  lemma FoundAt(value: string, s: string, i: int)
    requires OccursAt(value, s, i)
    ensures Occurs(value, s)
  {
  }

  lemma FoundAfter(value: string, before: string, s: string)
    requires Occurs(value, s)
    ensures Occurs(value, before + s)
  {
    var i :| 0 <= i <= |s| && OccursAt(value, s, i);
    OccursAfter(value, before, s, |before| + i);
  }

  /** A pass for a value removes it: the scan from the left misses no occurrence, and the mark completes none. */
  lemma {:induction false} NothingLeft(value: string, before: string, s: string, i: int)
    requires value != "" && !CanMeetMark(value)
    requires forall j :: 0 <= j < |before| ==> !OccursAt(value, before + s, j)
    ensures !OccursAt(value, before + Replace(s, value, MARK), i)
    decreases |s|
  {
    hide CanMeetMark;
    if s == "" {
      assert before + s == before;
    } else if StartsWith(s, value) {
      var rest := s[|value|..];
      var tail := Replace(rest, value, MARK);
      assert before + (MARK + tail) == before + MARK + tail;
      assert "" + tail == tail;
      NothingLeft(value, "", rest, i - |before + MARK|);
      NotAroundMark(value, before, s, tail, i);
    } else {
      var on := before + [s[0]];
      assert on + s[1..] == before + s;
      assert before + ([s[0]] + Replace(s[1..], value, MARK)) == on + Replace(s[1..], value, MARK);
      StartsHere(value, before, s);
      NothingLeft(value, on, s[1..], i);
    }
  }

  lemma StartsHere(value: string, before: string, s: string)
    ensures OccursAt(value, before + s, |before|) <==> StartsWith(s, value)
  {
    OccursAfter(value, before, s, |before|);
  }

  /** Neither before a mark, nor across it, nor after it. */
  lemma NotAroundMark(value: string, before: string, s: string, tail: string, i: int)
    requires value != "" && !CanMeetMark(value)
    requires forall j :: 0 <= j < |before| ==> !OccursAt(value, before + s, j)
    requires !OccursAt(value, tail, i - |before + MARK|)
    ensures !OccursAt(value, before + MARK + tail, i)
  {
    hide CanMeetMark;
    var whole := before + MARK + tail;
    if i + |value| <= |before| {
      assert before + (MARK + tail) == whole;
      OccursBefore(value, before, MARK + tail, s, i);
    } else if i >= |before + MARK| {
      OccursAfter(value, before + MARK, tail, i);
    } else if OccursAt(value, whole, i) {
      ApartFromMark(value, before, tail, i);
    }
  }

  /** The replacement loop on one log. */
  method RedactServiceLog(log: string, values: seq<string>) returns (content: string)
    requires LongestFirst(values) && forall v :: v in values ==> |v| >= MINIMUM_LENGTH
    ensures content == Redacted(log, values)
  {
    content := log;
    for i := 0 to |values|
      invariant content == Redacted(log, values[..i])
    {
      assert values[..i + 1][..i] == values[..i];
      content := Replace(content, values[i], MARK);
    }
    assert values[..|values|] == values;
  }

  /** The passes for all values, one after the other. */
  function Redacted(log: string, values: seq<string>): string
    requires forall v :: v in values ==> |v| >= MINIMUM_LENGTH
  {
    if values == [] then log
    else
      var last := |values| - 1;
      Replace(Redacted(log, values[..last]), values[last], MARK)
  }

  /** Redaction leaves nothing: however the values overlap or nest, none of those that cannot meet the mark is in the
      text after the loop, though later passes rewrite what earlier ones cleaned. */
  lemma {:induction false} RedactionLeavesNothing(log: string, values: seq<string>, value: string)
    requires forall v :: v in values ==> |v| >= MINIMUM_LENGTH
    requires value in values && !CanMeetMark(value)
    ensures !Occurs(value, Redacted(log, values))
  {
    hide CanMeetMark, Replace, Occurs;
    var last := |values| - 1;
    var earlier := Redacted(log, values[..last]);
    if values[last] == value {
      PassRemoves(value, earlier);
    } else {
      assert value in values[..last];
      RedactionLeavesNothing(log, values[..last], value);
      PassAddsNone(value, earlier, values[last]);
    }
  }

  lemma PassRemoves(value: string, s: string)
    requires value != "" && !CanMeetMark(value)
    ensures !Occurs(value, Replace(s, value, MARK))
  {
    hide CanMeetMark, Replace;
    var after := Replace(s, value, MARK);
    forall i ensures !OccursAt(value, after, i) {
      NothingLeft(value, "", s, i);
      assert "" + after == after;
    }
  }

  lemma PassAddsNone(value: string, s: string, from: string)
    requires from != "" && value != "" && !CanMeetMark(value) && !Occurs(value, s)
    ensures !Occurs(value, Replace(s, from, MARK))
  {
    hide CanMeetMark, Replace;
    var after := Replace(s, from, MARK);
    assert "" + after == after && "" + s == s;
    forall i ensures !OccursAt(value, after, i) {
      if OccursAt(value, after, i) {
        NothingNew(value, "", s, from, i);
      }
    }
  }

  /** The same for values without brackets that are not the word inside the mark. */
  lemma PlainValuesAreGone(log: string, values: seq<string>)
    requires forall v :: v in values ==> |v| >= MINIMUM_LENGTH && Plain(v)
    ensures forall v :: v in values ==> !Occurs(v, Redacted(log, values))
  {
    hide Plain, CanMeetMark, Occurs, Redacted;
    forall v | v in values ensures !Occurs(v, Redacted(log, values)) {
      PlainNeverMeetsMark(v);
      RedactionLeavesNothing(log, values, v);
    }
  }

  // ---- the condition is exact ----

  lemma {:induction false} ReplaceNothing(s: string, from: string, with: string)
    requires from != "" && forall i :: !OccursAt(from, s, i)
    ensures Replace(s, from, with) == s
  {
    if s != "" {
      assert "" + s == s;
      StartsHere(from, "", s);
      forall i ensures !OccursAt(from, s[1..], i) {
        if i >= 0 {
          assert [s[0]] + s[1..] == s;
          OccursAfter(from, [s[0]], s[1..], i + 1);
        }
      }
      ReplaceNothing(s[1..], from, with);
    }
  }

  lemma {:induction false} ReplaceAfter(before: string, s: string, from: string, with: string)
    requires from != "" && from[0] !in before
    ensures Replace(before + s, from, with) == before + Replace(s, from, with)
  {
    if before == "" {
      assert before + s == s;
    } else {
      ReplaceAfter(before[1..], s, from, with);
      ReplacePasses(before[0], before[1..] + s, from, with);
      assert [before[0]] + (before[1..] + s) == before + s;
    }
  }

  /** The part of a value before the mark and the part after it, when it is laid over the mark at `d`. */
  function Leading(value: string, d: int): string
    requires -|value| < d < |MARK|
  {
    if d < 0 then value[..-d] else ""
  }

  function Trailing(value: string, d: int): string
    requires -|value| < d < |MARK|
  {
    if d + |value| > |MARK| then value[|MARK| - d..] else ""
  }

  lemma MarkCompletes(value: string, d: int)
    requires AgreesAt(value, d)
    ensures Occurs(value, Leading(value, d) + MARK + Trailing(value, d))
  {
    var whole := Leading(value, d) + MARK + Trailing(value, d);
    var i := if d < 0 then 0 else d;
    forall k | 0 <= k < |value| ensures whole[i..i + |value|][k] == value[k] {
      if 0 <= d + k < |MARK| {
        assert value[k] == MARK[d + k];
      }
    }
    FoundAt(value, whole, i);
  }

  /** A log in which the value does not occur, until another value's pass puts the mark next to its parts. */
  function Bait(value: string, d: int, other: string): string
    requires -|value| < d < |MARK|
  {
    Leading(value, d) + other + Trailing(value, d)
  }

  lemma BaitIsClean(value: string, d: int, other: string, i: int)
    requires value != "" && -|value| < d < |MARK| && other != "" && forall c :: c in other ==> c !in value
    ensures !OccursAt(value, Bait(value, d, other), i)
  {
    var bait, at := Bait(value, d, other), |Leading(value, d)|;
    assert at < |value| && |Trailing(value, d)| < |value|;
    if 0 <= i && i + |value| <= |bait| {
      var m := if i < at then at else i;
      assert bait[m] == other[m - at];
      assert other[m - at] in other && value[m - i] in value;
      assert bait[i..i + |value|][m - i] == bait[m];
    }
  }

  /** Without the condition redaction can leave a value in the text: any value that can meet the mark survives some log,
      given one more sensitive value spelled with a character that neither it nor the mark has. */
  lemma MeetingTheMarkSurvives(value: string, c: char) returns (log: string, values: seq<string>)
    requires CanMeetMark(value) && |value| >= MINIMUM_LENGTH && c !in value && c !in MARK
    ensures value in values && LongestFirst(values) && forall v :: v in values ==> |v| >= MINIMUM_LENGTH
    ensures !Occurs(value, log) && Occurs(value, Redacted(log, values))
  {
    hide Occurs, Leading, Trailing;
    var d :| AgreesAt(value, d);
    var other := [c, c, c, c, c, c, c, c];
    values := [value, other];
    log := Bait(value, d, other);
    forall i ensures !OccursAt(value, log, i) {
      BaitIsClean(value, d, other, i);
    }
    NeverFound(value, log);
    ReplaceNothing(log, value, MARK);
    assert values[..1] == [value] && values[..1][..0] == [];
    assert Redacted(log, [value]) == log;
    BaitTaken(value, d, other);
    MarkCompletes(value, d);
  }

  lemma NeverFound(value: string, s: string)
    requires forall i :: !OccursAt(value, s, i)
    ensures !Occurs(value, s)
  {
  }

  lemma BaitTaken(value: string, d: int, other: string)
    requires -|value| < d < |MARK| && other != "" && forall c :: c in other ==> c !in value
    ensures Replace(Bait(value, d, other), other, MARK) == Leading(value, d) + MARK + Trailing(value, d)
  {
    var leading, trailing := Leading(value, d), Trailing(value, d);
    assert other[0] in other;
    assert leading + (other + trailing) == leading + other + trailing;
    ReplaceAfter(leading, other + trailing, other, MARK);
    ReplaceHits(trailing, other, MARK);
    ReplaceAfter(trailing, "", other, MARK);
    assert trailing + "" == trailing;
    assert leading + (MARK + trailing) == leading + MARK + trailing;
  }

  /** Why the longest goes first: the pass for a prefix would leave the rest of a longer value in the clear. */
  lemma ShorterFirstLeavesTheRest(value: string, rest: string)
    requires value != "" && value[0] !in rest
    ensures Replace(value + rest, value, MARK) == MARK + rest && Replace(value + rest, value + rest, MARK) == MARK
  {
    ReplaceHits(rest, value, MARK);
    ReplaceAfter(rest, "", value, MARK);
    assert rest + "" == rest;
    ReplaceHits("", value + rest, MARK);
    assert value + rest + "" == value + rest;
  }

  // ---- the rest of the log ----

  /** Pieces with a separator between any two of them. */
  function Glued(pieces: seq<string>, separator: string): string {
    if pieces == [] then ""
    else if |pieces| == 1 then pieces[0]
    else pieces[0] + separator + Glued(pieces[1..], separator)
  }

  lemma GluedOn(c: char, pieces: seq<string>, separator: string)
    requires pieces != []
    ensures Glued([[c] + pieces[0]] + pieces[1..], separator) == [c] + Glued(pieces, separator)
  {
    var more := [[c] + pieces[0]] + pieces[1..];
    assert more[1..] == pieces[1..];
    if |pieces| > 1 {
      assert ([c] + pieces[0]) + separator + Glued(pieces[1..], separator)
          == [c] + (pieces[0] + separator + Glued(pieces[1..], separator));
    }
  }

  lemma GluedNext(pieces: seq<string>, separator: string)
    requires pieces != []
    ensures Glued([""] + pieces, separator) == separator + Glued(pieces, separator)
  {
    assert ([""] + pieces)[1..] == pieces;
    assert "" + separator + Glued(pieces, separator) == separator + Glued(pieces, separator);
  }

  /** A pass changes occurrences of the value and nothing else: the text falls into pieces around them, which stay as
      they are, with the mark in place of the value. No occurrence is left inside a piece. */
  lemma {:induction false} PassKeepsTheRest(s: string, value: string) returns (pieces: seq<string>)
    requires value != ""
    ensures pieces != [] && s == Glued(pieces, value) && Replace(s, value, MARK) == Glued(pieces, "[REDACTED]")
    ensures forall p :: p in pieces ==> !Occurs(value, p)
    decreases |s|
  {
    hide Occurs, Glued, Replace;
    assert MARK == "[REDACTED]";
    if s == "" {
      pieces := [""];
      NoPieces(value);
      Short(value, "");
    } else if StartsWith(s, value) {
      var rest := PassKeepsTheRest(s[|value|..], value);
      pieces := [""] + rest;
      assert s == value + s[|value|..];
      ReplaceHits(s[|value|..], value, MARK);
      GluedNext(rest, value);
      GluedNext(rest, MARK);
      Short(value, "");
    } else {
      var rest := PassKeepsTheRest(s[1..], value);
      pieces := [[s[0]] + rest[0]] + rest[1..];
      GluedOn(s[0], rest, value);
      GluedOn(s[0], rest, MARK);
      assert s == [s[0]] + s[1..];
      PassedOver(s, value);
      GluedStarts(rest, value);
      NotInFirst(s[0], rest, value, s);
      forall p | p in pieces ensures !Occurs(value, p) {
        assert p == pieces[0] || p in rest;
      }
    }
  }

  lemma PassedOver(s: string, value: string)
    requires value != "" && s != "" && !StartsWith(s, value)
    ensures Replace(s, value, MARK) == [s[0]] + Replace(s[1..], value, MARK)
  {
  }

  lemma NoPieces(value: string)
    requires value != ""
    ensures Glued([""], value) == "" && Glued([""], MARK) == "" && Replace("", value, MARK) == ""
  {
  }

  lemma Short(value: string, s: string)
    requires |s| < |value|
    ensures !Occurs(value, s)
  {
  }

  lemma GluedStarts(pieces: seq<string>, separator: string)
    requires pieces != []
    ensures pieces[0] <= Glued(pieces, separator)
  {
  }

  /** A text that does not start with the value has no occurrence in its first piece. */
  lemma NotInFirst(c: char, rest: seq<string>, value: string, s: string)
    requires value != "" && rest != [] && !Occurs(value, rest[0]) && !StartsWith(s, value)
    requires s == [c] + Glued(rest, value) && rest[0] <= Glued(rest, value)
    ensures !Occurs(value, [c] + rest[0])
  {
    var first := [c] + rest[0];
    forall i ensures !OccursAt(value, first, i) {
      if i > 0 {
        OccursAfter(value, [c], rest[0], i);
        assert !OccursAt(value, rest[0], i - 1);
      } else if i == 0 && |value| <= |first| {
        assert first <= s;
        assert first[..|value|] == s[..|value|];
      }
    }
  }

  /** A log that contains none of the values comes out as it went in. */
  lemma {:induction false} NothingToRedact(log: string, values: seq<string>)
    requires forall v :: v in values ==> |v| >= MINIMUM_LENGTH && !Occurs(v, log)
    ensures Redacted(log, values) == log
  {
    hide Occurs, Replace;
    if values != [] {
      var last := |values| - 1;
      NothingToRedact(log, values[..last]);
      assert values[last] in values;
      AbsentEverywhere(values[last], log);
      ReplaceNothing(log, values[last], MARK);
    }
  }

  lemma AbsentEverywhere(value: string, s: string)
    requires !Occurs(value, s)
    ensures forall i :: !OccursAt(value, s, i)
  {
    forall i ensures !OccursAt(value, s, i) {
      assert 0 <= i <= |s| || !OccursAt(value, s, i);
    }
  }
}
