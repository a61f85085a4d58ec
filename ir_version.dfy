/**
 * The ONNX IR version, an integer that packs a major, a minor and a patch
 * number, and its printed form "major.minor.patch"
 * (onnx_ir_version_string in src/operator/subgraph/tensorrt/onnx_to_tensorrt.cc).
 *
 * The printed form is specified here together with its inverse: a reader
 * that splits the string at its dots and reads each part back as a decimal
 * number recovers the three parts, and from them the integer.
 */
module IrVersion {
  import opened Wrappers

  /** The three parts an IR version integer encodes. */
  datatype Triple = Triple(major: nat, minor: nat, patch: nat)

  /** One major version is worth this many units of the integer. */
  const MajorUnit: nat := 1000000
  /** One minor version is worth this many units of the integer. */
  const MinorUnit: nat := 10000

  /** A triple whose minor and patch numbers fit their fields, i.e. one that Decompose can yield. */
  predicate InRange(t: Triple) {
    t.minor < MajorUnit / MinorUnit && t.patch < MinorUnit
  }

  /** The integer a triple stands for. */
  function Compose(t: Triple): nat {
    t.major * MajorUnit + t.minor * MinorUnit + t.patch
  }

  /**
   * Splits a non-negative IR version into major (v / 1000000), minor
   * (v % 1000000 / 10000) and patch (v % 10000). The parts always fit their
   * fields and compose back to v.
   */
  function Decompose(v: nat): (t: Triple)
    ensures InRange(t)
    ensures Compose(t) == v
  {
    var major, rest := v / MajorUnit, v % MajorUnit;
    var minor, patch := rest / MinorUnit, rest % MinorUnit;
    assert rest == minor * MinorUnit + patch;
    assert v == (major * 100 + minor) * MinorUnit + patch;
    Triple(major, minor, patch)
  }

  /** Decompose is also a left inverse of Compose: a triple that fits its fields is recovered from its integer. */
  lemma DecomposeCompose(t: Triple)
    requires InRange(t)
    ensures Decompose(Compose(t)) == t
  {
    var v := Compose(t);
    var low := t.minor * MinorUnit + t.patch;
    assert low < MajorUnit by {
      assert t.minor * MinorUnit <= 99 * MinorUnit;
    }
    assert v / MajorUnit == t.major && v % MajorUnit == low;
    assert low / MinorUnit == t.minor && low % MinorUnit == t.patch;
  }

  predicate IsDigit(c: char) {
    '0' <= c <= '9'
  }

  predicate AllDigits(s: string) {
    forall i :: 0 <= i < |s| ==> IsDigit(s[i])
  }

  /** A non-empty string of decimal digits without a leading zero (except "0" itself). */
  predicate Canonical(s: string) {
    |s| >= 1 && AllDigits(s) && (s[0] == '0' ==> |s| == 1)
  }

  function DigitChar(d: nat): (c: char)
    requires d < 10
  {
    ('0' as int + d) as char
  }

  function DigitValue(c: char): (d: nat)
    requires IsDigit(c)
  {
    c as int - '0' as int
  }

  /**
   * The decimal form of n, as std::to_string prints a non-negative integer:
   * digits only, no sign, no padding and no leading zero.
   */
  function Decimal(n: nat): (s: string)
    ensures Canonical(s)
    ensures s[0] == '0' <==> n == 0
  {
    if n < 10 then [DigitChar(n)] else Decimal(n / 10) + [DigitChar(n % 10)]
  }

  /** The number a string of decimal digits denotes; a string that starts with a non-zero digit denotes a positive number. */
  function DecimalValue(s: string): (n: nat)
    requires AllDigits(s)
    ensures |s| >= 1 && s[0] != '0' ==> n >= 1
  {
    if s == [] then 0 else DecimalValue(s[..|s| - 1]) * 10 + DigitValue(s[|s| - 1])
  }

  /** Reading back the decimal form of n gives n. */
  lemma {:induction false} DecimalRoundTrip(n: nat)
    ensures DecimalValue(Decimal(n)) == n
  {
    if n >= 10 {
      var s := Decimal(n);
      assert s[..|s| - 1] == Decimal(n / 10);
      DecimalRoundTrip(n / 10);
    } else {
      assert Decimal(n)[..0] == [];
    }
  }

  /** Every canonical digit string is the decimal form of the number it denotes, so Decimal misses no canonical string. */
  lemma {:induction false} CanonicalRoundTrip(s: string)
    requires Canonical(s)
    ensures Decimal(DecimalValue(s)) == s
  {
    if |s| > 1 {
      var init := s[..|s| - 1];
      assert init[0] == s[0];
      CanonicalRoundTrip(init);
      var n := DecimalValue(s);
      var d := DigitValue(s[|s| - 1]);
      assert n == DecimalValue(init) * 10 + d;
      assert n / 10 == DecimalValue(init) && n % 10 == d;
      assert s == init + [s[|s| - 1]];
    } else {
      assert s[..0] == [];
    }
  }

  /** The string cut at every '.'; a string with k dots has k + 1 parts. */
  function SplitDots(s: string): (parts: seq<string>)
    ensures |parts| >= 1
  {
    if s == [] then [[]]
    else
      var rest := SplitDots(s[1..]);
      if s[0] == '.' then [[]] + rest else [[s[0]] + rest[0]] + rest[1..]
  }

  lemma {:induction false} SplitNoDot(a: string)
    requires '.' !in a
    ensures SplitDots(a) == [a]
  {
    if a != [] {
      SplitNoDot(a[1..]);
      assert [a[0]] + a[1..] == a;
    }
  }

  lemma {:induction false} SplitAtFirstDot(a: string, b: string)
    requires '.' !in a
    ensures SplitDots(a + "." + b) == [a] + SplitDots(b)
  {
    if a == [] {
      assert a + "." + b == "." + b;
      assert ("." + b)[1..] == b;
    } else {
      assert (a + "." + b)[1..] == a[1..] + "." + b;
      SplitAtFirstDot(a[1..], b);
      assert [a[0]] + a[1..] == a;
    }
  }

  /** The parts joined back together with a '.' between neighbours. */
  function JoinDots(parts: seq<string>): string
    requires |parts| >= 1
  {
    if |parts| == 1 then parts[0] else parts[0] + "." + JoinDots(parts[1..])
  }

  /** Prepending a character to the first part prepends it to the joined string. */
  lemma JoinDotsCons(x: char, p: string, q: seq<string>)
    ensures JoinDots([[x] + p] + q) == [x] + JoinDots([p] + q)
  {
    assert ([[x] + p] + q)[1..] == q == ([p] + q)[1..];
  }

  /** Cutting a string at its dots and joining the parts again gives the string back. */
  lemma {:induction false} SplitJoin(s: string)
    ensures JoinDots(SplitDots(s)) == s
  {
    if s != [] {
      var rest := SplitDots(s[1..]);
      SplitJoin(s[1..]);
      if s[0] == '.' {
        assert ([[]] + rest)[1..] == rest;
      } else {
        assert rest == [rest[0]] + rest[1..];
        JoinDotsCons(s[0], rest[0], rest[1..]);
      }
    }
  }

  /** The reader of "major.minor.patch" strings: three canonical decimal numbers separated by dots, nothing else. */
  function ParseVersion(s: string): (r: Option<Triple>)
    ensures r.Some? ==> multiset(s)['.'] == 2
  {
    var parts := SplitDots(s);
    if |parts| == 3 && Canonical(parts[0]) && Canonical(parts[1]) && Canonical(parts[2]) then
      SplitDotsDots(s);
      Some(Triple(DecimalValue(parts[0]), DecimalValue(parts[1]), DecimalValue(parts[2])))
    else
      None
  }

  /** A string whose parts are dot-free has one dot fewer than it has parts. */
  lemma {:induction false} SplitDotsDots(s: string)
    ensures multiset(s)['.'] == |SplitDots(s)| - 1
  {
    if s != [] {
      SplitDotsDots(s[1..]);
      assert s == [s[0]] + s[1..];
      assert multiset(s) == multiset([s[0]]) + multiset(s[1..]);
    }
  }

  /**
   * The printed IR version: the decimal forms of major, minor and patch joined
   * by two dots. It has exactly two dots and no other non-digit character.
   */
  function VersionString(v: nat): (s: string)
    ensures multiset(s)['.'] == 2
    ensures forall i :: 0 <= i < |s| ==> IsDigit(s[i]) || s[i] == '.'
  {
    var t := Decompose(v);
    var a, b, c := Decimal(t.major), Decimal(t.minor), Decimal(t.patch);
    JoinDigits(a, b, c);
    a + "." + b + "." + c
  }

  lemma NoDotInDigits(s: string)
    requires AllDigits(s)
    ensures '.' !in s && multiset(s)['.'] == 0
  {
  }

  /** Three digit strings joined by dots: two dots, and digits everywhere else. */
  lemma JoinDigits(a: string, b: string, c: string)
    requires AllDigits(a) && AllDigits(b) && AllDigits(c)
    ensures multiset(a + "." + b + "." + c)['.'] == 2
    ensures forall i :: 0 <= i < |a + "." + b + "." + c| ==> IsDigit((a + "." + b + "." + c)[i]) || (a + "." + b + "." + c)[i] == '.'
  {
  }

  /** Three dot-free strings joined by dots split back into those three strings. */
  lemma SplitThree(a: string, b: string, c: string)
    requires '.' !in a && '.' !in b && '.' !in c
    ensures SplitDots(a + "." + b + "." + c) == [a, b, c]
  {
    SplitNoDot(c);
    SplitAtFirstDot(b, c);
    SplitAtFirstDot(a, b + "." + c);
    assert a + "." + b + "." + c == a + "." + (b + "." + c);
  }

  /** Three canonical numbers joined by dots read back as those numbers. */
  lemma ParseJoined(a: string, b: string, c: string)
    requires Canonical(a) && Canonical(b) && Canonical(c)
    ensures ParseVersion(a + "." + b + "." + c) == Some(Triple(DecimalValue(a), DecimalValue(b), DecimalValue(c)))
  {
    NoDotInDigits(a);
    NoDotInDigits(b);
    NoDotInDigits(c);
    SplitThree(a, b, c);
  }

  /** The printed version reads back as the decomposition of v. */
  lemma VersionStringRoundTrip(v: nat)
    ensures ParseVersion(VersionString(v)) == Some(Decompose(v))
  {
    var t := Decompose(v);
    ParseJoined(Decimal(t.major), Decimal(t.minor), Decimal(t.patch));
    DecimalRoundTrip(t.major);
    DecimalRoundTrip(t.minor);
    DecimalRoundTrip(t.patch);
  }

  /** A string the reader accepts is its three parts joined by dots. */
  lemma ParsedIsJoined(s: string)
    requires |SplitDots(s)| == 3
    ensures s == SplitDots(s)[0] + "." + SplitDots(s)[1] + "." + SplitDots(s)[2]
  {
    var parts := SplitDots(s);
    SplitJoin(s);
    assert parts[1..][0] == parts[1] && parts[1..][1..] == [parts[2]];
    assert JoinDots(parts[1..]) == parts[1] + "." + parts[2];
  }

  /** Three canonical numbers that fit the fields, joined by dots, are the printed form of the version they compose to. */
  lemma JoinedIsPrinted(a: string, b: string, c: string)
    requires Canonical(a) && Canonical(b) && Canonical(c)
    requires InRange(Triple(DecimalValue(a), DecimalValue(b), DecimalValue(c)))
    ensures a + "." + b + "." + c == VersionString(Compose(Triple(DecimalValue(a), DecimalValue(b), DecimalValue(c))))
  {
    DecomposeCompose(Triple(DecimalValue(a), DecimalValue(b), DecimalValue(c)));
    CanonicalRoundTrip(a);
    CanonicalRoundTrip(b);
    CanonicalRoundTrip(c);
  }

  /**
   * Conversely, every string the reader accepts with parts that fit their
   * fields is the printed form of the version those parts compose to.
   */
  lemma ParsedIsPrinted(s: string)
    requires ParseVersion(s).Some? && InRange(ParseVersion(s).value)
    ensures s == VersionString(Compose(ParseVersion(s).value))
  {
    var parts := SplitDots(s);
    ParsedIsJoined(s);
    JoinedIsPrinted(parts[0], parts[1], parts[2]);
  }

  /** Distinct IR versions print differently: the string determines the integer. */
  lemma VersionStringInjective(v: nat, w: nat)
    requires VersionString(v) == VersionString(w)
    ensures v == w
  {
    VersionStringRoundTrip(v);
    VersionStringRoundTrip(w);
  }
}
