/** The string operations of Python that the modelled programs rely on. */
module Text {

  predicate StartsWith<T(==)>(s: seq<T>, prefix: seq<T>) {
    prefix <= s
  }

  /** `needle in haystack`. */
  predicate Occurs<T(==)>(needle: seq<T>, haystack: seq<T>) {
    exists i :: 0 <= i <= |haystack| && OccursAt(needle, haystack, i)
  }

  predicate OccursAt<T(==)>(needle: seq<T>, haystack: seq<T>, i: int) {
    0 <= i && i + |needle| <= |haystack| && haystack[i..i + |needle|] == needle
  }

  /** `s.replace(from, with)`: one scan from the left over non-overlapping occurrences. */
  function Replace(s: string, from: string, with: string): string
    requires from != ""
  {
    if s == "" then ""
    else if StartsWith(s, from) then with + Replace(s[|from|..], from, with)
    else [s[0]] + Replace(s[1..], from, with)
  }

  /** The scan passes over a character that cannot start an occurrence. */
  lemma ReplacePasses(c: char, s: string, from: string, with: string)
    requires from != "" && c != from[0]
    ensures Replace([c] + s, from, with) == [c] + Replace(s, from, with)
  {
    assert ([c] + s)[1..] == s;
  }

  /** The scan replaces an occurrence it stands at. */
  lemma ReplaceHits(s: string, from: string, with: string)
    requires from != ""
    ensures Replace(from + s, from, with) == with + Replace(s, from, with)
  {
    assert (from + s)[|from|..] == s;
  }

  /** The scan passes over a two-character token that starts like the pattern but differs in its second place. */
  lemma ReplacePassesPair(c: char, d: char, s: string, from: string, with: string)
    requires |from| == 2 && c == from[0] && d != from[1] && d != from[0]
    ensures Replace([c, d] + s, from, with) == [c, d] + Replace(s, from, with)
  {
    var whole := [c, d] + s;
    assert whole[1] == d;
    assert whole[1..] == [d] + s;
    ReplacePasses(d, s, from, with);
    assert [c] + ([d] + Replace(s, from, with)) == [c, d] + Replace(s, from, with);
  }

  /** `s.split(sep)` for a one-character separator: always at least one part. */
  function Split(s: string, sep: char): (parts: seq<string>)
    ensures parts != []
  {
    if s == "" then [""]
    else
      var rest := Split(s[1..], sep);
      if s[0] == sep then [""] + rest else [[s[0]] + rest[0]] + rest[1..]
  }

  /** `sep.join(parts)`. */
  function Join(parts: seq<string>, sep: char): string {
    if parts == [] then ""
    else if |parts| == 1 then parts[0]
    else parts[0] + [sep] + Join(parts[1..], sep)
  }

  lemma {:induction false} SplitFirst(part: string, rest: string, sep: char)
    requires sep !in part
    ensures Split(part + [sep] + rest, sep) == [part] + Split(rest, sep)
  {
    var s := part + [sep] + rest;
    if part == "" {
      assert s[1..] == rest;
    } else {
      assert s[1..] == part[1..] + [sep] + rest;
      SplitFirst(part[1..], rest, sep);
      assert [s[0]] + part[1..] == part;
    }
  }

  lemma {:induction false} SplitWhole(part: string, sep: char)
    requires sep !in part
    ensures Split(part, sep) == [part]
  {
    if part != "" {
      SplitWhole(part[1..], sep);
      assert [part[0]] + part[1..] == part;
    }
  }

  /** Splitting undoes joining, for parts without the separator. */
  lemma {:induction false} SplitJoin(parts: seq<string>, sep: char)
    requires parts != [] && forall p :: p in parts ==> sep !in p
    ensures Split(Join(parts, sep), sep) == parts
  {
    if |parts| == 1 {
      SplitWhole(parts[0], sep);
    } else {
      SplitFirst(parts[0], Join(parts[1..], sep), sep);
      SplitJoin(parts[1..], sep);
    }
  }

  /** Joining undoes splitting, for every string. */
  lemma {:induction false} JoinSplit(s: string, sep: char)
    ensures Join(Split(s, sep), sep) == s
  {
    if s != "" {
      JoinSplit(s[1..], sep);
      var rest := Split(s[1..], sep);
      assert s == [s[0]] + s[1..];
      if s[0] == sep {
        assert ([""] + rest)[1..] == rest;
      } else if |rest| > 1 {
        assert ([[s[0]] + rest[0]] + rest[1..])[1..] == rest[1..];
        assert [s[0]] + (rest[0] + [sep] + Join(rest[1..], sep)) == [s[0]] + rest[0] + [sep] + Join(rest[1..], sep);
      }
    }
  }

  lemma SplitStep(c: char, s: string, sep: char)
    ensures Split([c] + s, sep) ==
            if c == sep then [""] + Split(s, sep) else [[c] + Split(s, sep)[0]] + Split(s, sep)[1..]
  {
    assert ([c] + s)[1..] == s;
  }

  /** Splitting cuts at every separator, whatever is on either side. */
  lemma {:induction false} SplitConcat(s: string, t: string, sep: char)
    ensures Split(s + [sep] + t, sep) == Split(s, sep) + Split(t, sep)
    decreases |s|, 0
  {
    if s == "" {
      SplitStep(sep, t, sep);
      assert s + [sep] + t == [sep] + t;
    } else {
      SplitConcatStep(s[0], s[1..], t, sep);
      assert [s[0]] + s[1..] == s;
    }
  }

  lemma {:induction false} SplitConcatStep(c: char, s: string, t: string, sep: char)
    ensures Split([c] + s + [sep] + t, sep) == Split([c] + s, sep) + Split(t, sep)
    decreases |s|, 1
  {
    hide Split;
    var left, right, joined := Split(s, sep), Split(t, sep), s + [sep] + t;
    SplitConcat(s, t, sep);
    SplitStep(c, s, sep);
    SplitStep(c, joined, sep);
    assert [c] + s + [sep] + t == [c] + joined;
    if c == sep {
      assert [""] + (left + right) == [""] + left + right;
    } else {
      HeadOfConcat(left, right, [[c] + left[0]]);
    }
  }

  lemma HeadOfConcat(left: seq<string>, right: seq<string>, head: seq<string>)
    requires left != []
    ensures (left + right)[0] == left[0] && head + (left + right)[1..] == head + left[1..] + right
  {
  }

  predicate AllDigits(s: string) {
    forall i :: 0 <= i < |s| ==> '0' <= s[i] <= '9'
  }

  /** The decimal digits of a natural number, most significant first and without leading zeros: `str(n)`. */
  function Decimal(n: nat): (s: string)
    ensures s != "" && AllDigits(s)
    ensures s[0] == '0' ==> n == 0
  {
    if n < 10 then [Digit(n)] else Decimal(n / 10) + [Digit(n % 10)]
  }

  function Digit(n: nat): (c: char)
    requires n < 10
    ensures '0' <= c <= '9' && c as int - '0' as int == n
  {
    '0' + n as char
  }

  /** `str(n)` for any integer. */
  function Show(n: int): string {
    if n < 0 then "-" + Decimal(-n) else Decimal(n)
  }

  /** `int(s)` on a string of decimal digits. */
  function DigitsValue(s: string): nat
    requires AllDigits(s)
  {
    if s == "" then 0 else 10 * DigitsValue(s[..|s| - 1]) + (s[|s| - 1] as int - '0' as int)
  }

  lemma {:induction false} DecimalRoundTrip(n: nat)
    ensures DigitsValue(Decimal(n)) == n
  {
    var s := Decimal(n);
    if n < 10 {
      assert s[..|s| - 1] == "";
    } else {
      assert s[..|s| - 1] == Decimal(n / 10);
      DecimalRoundTrip(n / 10);
    }
  }

  lemma ShowSign(n: int)
    ensures Show(n) != "" && (Show(n)[0] == '-' <==> n < 0)
    ensures n < 0 ==> Show(n)[1..] == Decimal(-n)
  {
  }

  lemma ShowInjective(m: int, n: int)
    requires Show(m) == Show(n)
    ensures m == n
  {
    ShowSign(m);
    ShowSign(n);
    DecimalRoundTrip(if m < 0 then -m else m);
    DecimalRoundTrip(if n < 0 then -n else n);
  }
}
