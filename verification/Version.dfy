/** `_major_contract_version` of scripts/openapi_compatibility.py: the major number of a semantic version. */
module Version {
  import opened Json
  import opened Text

  /** How many leading characters are decimal digits. */
  function DigitRun(s: string): (n: nat)
    ensures n <= |s| && AllDigits(s[..n])
    ensures n < |s| ==> !('0' <= s[n] <= '9')
  {
    if s != "" && '0' <= s[0] <= '9' then 1 + DigitRun(s[1..]) else 0
  }

  /** `0|[1-9][0-9]*` up to the first character that is no digit. */
  predicate Numeral(s: string) {
    s != "" && AllDigits(s) && (s[0] == '0' ==> |s| == 1)
  }

  /** What follows a numeral and a dot, if the string starts with them. */
  function AfterNumeralAndDot(s: string): Option<string> {
    var n := DigitRun(s);
    if Numeral(s[..n]) && n < |s| && s[n] == '.' then Some(s[n + 1..]) else None
  }

  /** The pre-release and build part: nothing, or anything without a line break after `-` or `+`. */
  predicate Suffix(s: string) {
    s == "" || (s[0] in "-+" && '\n' !in s[1..])
  }

  /** The whole string is a semantic version. */
  predicate SemanticVersion(s: string) {
    var minor := AfterNumeralAndDot(s);
    minor.Some? &&
    var patch := AfterNumeralAndDot(minor.value);
    patch.Some? &&
    var n := DigitRun(patch.value);
    Numeral(patch.value[..n]) && Suffix(patch.value[n..])
  }

  function MajorOf(s: string): nat {
    if SemanticVersion(s) then DigitsValue(s[..DigitRun(s)]) else 0
  }

  function MajorVersion(document: Json): nat {
    var version := Get(Fields(Get(Fields(document), "info")), "version");
    if version.Str? then MajorOf(version.s) else 0
  }

  lemma {:induction false} RunStops(digits: string, rest: string)
    requires AllDigits(digits) && (rest == "" || !('0' <= rest[0] <= '9'))
    ensures DigitRun(digits + rest) == |digits|
  {
    if digits != "" {
      assert (digits + rest)[1..] == digits[1..] + rest;
      RunStops(digits[1..], rest);
    } else {
      assert digits + rest == rest;
    }
  }

  lemma NumeralThenDot(n: nat, rest: string)
    ensures AfterNumeralAndDot(Decimal(n) + "." + rest) == Some(rest)
    ensures var s := Decimal(n) + "." + rest; s[..DigitRun(s)] == Decimal(n)
  {
    var d := Decimal(n);
    var s := d + "." + rest;
    assert s == d + ("." + rest);
    RunStops(d, "." + rest);
    assert s[..|d|] == d && s[|d|] == '.' && s[|d| + 1..] == rest;
    DecimalNumeral(n);
  }

  lemma {:induction false} DecimalNumeral(n: nat)
    ensures Numeral(Decimal(n))
  {
    if n >= 10 {
      DecimalNumeral(n / 10);
      assert Decimal(n)[0] == Decimal(n / 10)[0];
    }
  }

  lemma PatchForm(patch: nat, suffix: string)
    requires Suffix(suffix)
    ensures var third := Decimal(patch) + suffix; var n := DigitRun(third);
            Numeral(third[..n]) && Suffix(third[n..])
  {
    var third := Decimal(patch) + suffix;
    RunStops(Decimal(patch), suffix);
    assert third[..|Decimal(patch)|] == Decimal(patch) && third[|Decimal(patch)|..] == suffix;
    DecimalNumeral(patch);
  }

  /** Every semantic version is read with its own major number. */
  lemma MajorRoundTrip(major: nat, minor: nat, patch: nat, suffix: string)
    requires Suffix(suffix)
    ensures MajorOf(Decimal(major) + "." + (Decimal(minor) + "." + (Decimal(patch) + suffix))) == major
  {
    hide AfterNumeralAndDot, Suffix, Numeral, Decimal, DigitRun, DigitsValue;
    var third := Decimal(patch) + suffix;
    var second := Decimal(minor) + "." + third;
    var whole := Decimal(major) + "." + second;
    NumeralThenDot(major, second);
    NumeralThenDot(minor, third);
    PatchForm(patch, suffix);
    assert SemanticVersion(whole);
    DecimalRoundTrip(major);
  }

  /** The version of a document stands below `info`. */
  lemma DocumentRoundTrip(fields: Object, info: Object, major: nat, minor: nat, patch: nat, suffix: string)
    requires Suffix(suffix) && "info" in fields && fields["info"] == Obj(info) && "version" in info
    requires info["version"] == Str(Decimal(major) + "." + (Decimal(minor) + "." + (Decimal(patch) + suffix)))
    ensures MajorVersion(Obj(fields)) == major
  {
    hide MajorOf, Suffix, Decimal;
    MajorRoundTrip(major, minor, patch, suffix);
  }

  /** A numeral followed by a dot is the only way to get past one. */
  lemma PastNumeral(s: string)
    requires AfterNumeralAndDot(s).Some?
    ensures Numeral(s[..DigitRun(s)])
    ensures s == s[..DigitRun(s)] + "." + AfterNumeralAndDot(s).value
  {
  }

  /** A text made of three numerals, two dots and a suffix. */
  predicate Composed(s: string, major: string, minor: string, patch: string, suffix: string) {
    && Numeral(major) && Numeral(minor) && Numeral(patch) && Suffix(suffix)
    && s == major + "." + (minor + "." + (patch + suffix))
  }

  lemma VersionParts(s: string) returns (minor: string, patch: string, suffix: string)
    requires SemanticVersion(s)
    ensures Composed(s, s[..DigitRun(s)], minor, patch, suffix)
  {
    hide AfterNumeralAndDot, Numeral, Suffix, DigitRun;
    var second := AfterNumeralAndDot(s).value;
    var third := AfterNumeralAndDot(second).value;
    PastNumeral(s);
    PastNumeral(second);
    minor := second[..DigitRun(second)];
    patch, suffix := third[..DigitRun(third)], third[DigitRun(third)..];
    assert third == patch + suffix;
  }

  /** Anything that is read with a nonzero major has the form of a semantic version. */
  lemma MajorNeedsForm(s: string)
    requires MajorOf(s) > 0
    ensures exists major, minor, patch, suffix ::
              Composed(s, major, minor, patch, suffix) && MajorOf(s) == DigitsValue(major)
  {
    hide SemanticVersion, DigitRun, DigitsValue, Composed;
    var minor, patch, suffix := VersionParts(s);
    assert Composed(s, s[..DigitRun(s)], minor, patch, suffix);
  }
}
