/** PHP's `version_compare` on dotted numeric version strings such as
    "1.0.6": each dot-separated part is read as a number (its leading
    digits) and versions are ordered part by part, a version that is a
    proper prefix of another being the smaller ("1.0" < "1.0.0"). */
module Versions {
  import opened Values

  /** The dot-separated parts of a string. */
  function SplitDots(s: string): (parts: seq<string>)
    ensures |parts| >= 1
    ensures forall i :: 0 <= i < |parts| ==> '.' !in parts[i]
  {
    if s == [] then [""]
    else
      var rest := SplitDots(s[1..]);
      if s[0] == '.' then [""] + rest else [[s[0]] + rest[0]] + rest[1..]
  }

  /** The longest prefix made of decimal digits. */
  function LeadingDigits(p: string): (d: string)
    ensures forall i :: 0 <= i < |d| ==> IsDigit(d[i])
    ensures |d| <= |p| && d == p[..|d|]
  {
    if p == [] || !IsDigit(p[0]) then [] else [p[0]] + LeadingDigits(p[1..])
  }

  /** The number a string of decimal digits denotes. */
  function DigitsValue(d: string): nat
    requires forall i :: 0 <= i < |d| ==> IsDigit(d[i])
  {
    if d == [] then 0
    else
      var last := d[|d| - 1];
      assert IsDigit(last);
      DigitsValue(d[..|d| - 1]) * 10 + (last as int - '0' as int)
  }

  function PartValue(p: string): nat {
    DigitsValue(LeadingDigits(p))
  }

  function PartValues(parts: seq<string>): (v: seq<nat>)
    ensures |v| == |parts|
  {
    if parts == [] then [] else [PartValue(parts[0])] + PartValues(parts[1..])
  }

  /** A version string as the sequence of its numeric parts; the empty
      string has no parts. */
  function ParseVersion(s: string): (v: seq<nat>)
    ensures s != "" ==> |v| >= 1
  {
    if s == "" then [] else PartValues(SplitDots(s))
  }

  /** `version_compare(a, b, '<')` on parsed versions. */
  predicate VersionLess(a: seq<nat>, b: seq<nat>) {
    if a == [] then b != []
    else if b == [] then false
    else if a[0] != b[0] then a[0] < b[0]
    else VersionLess(a[1..], b[1..])
  }

  lemma {:induction false} VersionLessIrreflexive(a: seq<nat>)
    ensures !VersionLess(a, a)
  {
    if a != [] {
      VersionLessIrreflexive(a[1..]);
    }
  }

  lemma {:induction false} VersionLessAsymmetric(a: seq<nat>, b: seq<nat>)
    ensures VersionLess(a, b) ==> !VersionLess(b, a)
  {
    if a != [] && b != [] && a[0] == b[0] {
      VersionLessAsymmetric(a[1..], b[1..]);
    }
  }

  lemma {:induction false} VersionLessTransitive(a: seq<nat>, b: seq<nat>, c: seq<nat>)
    requires VersionLess(a, b) && VersionLess(b, c)
    ensures VersionLess(a, c)
  {
    if a != [] && b != [] && c != [] && a[0] == b[0] && b[0] == c[0] {
      VersionLessTransitive(a[1..], b[1..], c[1..]);
    }
  }

  /** Two different versions are always ordered one way or the other. */
  lemma {:induction false} VersionLessTotal(a: seq<nat>, b: seq<nat>)
    requires a != b
    ensures VersionLess(a, b) || VersionLess(b, a)
  {
    if a != [] && b != [] && a[0] == b[0] {
      assert a == [a[0]] + a[1..] && b == [b[0]] + b[1..];
      VersionLessTotal(a[1..], b[1..]);
    }
  }

  // ---------------------------------------------------------------------
  // Rendering, the partner of parsing

  /** The digits of each part joined with dots. */
  function RenderVersion(v: seq<nat>): (s: string)
    requires |v| >= 1
    ensures s != ""
  {
    if |v| == 1 then NatToString(v[0]) else NatToString(v[0]) + "." + RenderVersion(v[1..])
  }

  lemma {:induction false} DigitsValueOfNatToString(n: nat)
    ensures DigitsValue(NatToString(n)) == n
  {
    var s := NatToString(n);
    if n >= 10 {
      assert s[..|s| - 1] == NatToString(n / 10);
      DigitsValueOfNatToString(n / 10);
    }
  }

  lemma {:induction false} LeadingDigitsOfDigits(d: string)
    requires forall i :: 0 <= i < |d| ==> IsDigit(d[i])
    ensures LeadingDigits(d) == d
  {
    if d != [] {
      LeadingDigitsOfDigits(d[1..]);
    }
  }

  lemma {:induction false} SplitDotsNoDot(a: string)
    requires '.' !in a
    ensures SplitDots(a) == [a]
  {
    if a != [] {
      assert a[0] != '.' && '.' !in a[1..] by {
        assert a == [a[0]] + a[1..];
      }
      SplitDotsNoDot(a[1..]);
      assert [a[0]] + a[1..] == a;
    }
  }

  lemma {:induction false} SplitDotsJoin(a: string, b: string)
    requires '.' !in a
    ensures SplitDots(a + "." + b) == [a] + SplitDots(b)
  {
    if a == [] {
      assert a + "." + b == ['.'] + b;
      assert (['.'] + b)[1..] == b;
    } else {
      assert (a + "." + b)[0] == a[0];
      assert (a + "." + b)[1..] == a[1..] + "." + b;
      assert a[0] != '.' && '.' !in a[1..] by {
        assert a == [a[0]] + a[1..];
      }
      SplitDotsJoin(a[1..], b);
      assert [a[0]] + a[1..] == a;
    }
  }

  lemma NatToStringHasNoDot(n: nat)
    ensures '.' !in NatToString(n)
  {
  }

  /** Rendering a version and parsing it back gives the same version. */
  lemma {:induction false} ParseRenderRoundTrip(v: seq<nat>)
    requires |v| >= 1
    ensures ParseVersion(RenderVersion(v)) == v
  {
    var head := NatToString(v[0]);
    NatToStringHasNoDot(v[0]);
    LeadingDigitsOfDigits(head);
    DigitsValueOfNatToString(v[0]);
    assert PartValue(head) == v[0];
    if |v| == 1 {
      SplitDotsNoDot(head);
    } else {
      ParseRenderRoundTrip(v[1..]);
      var tail := RenderVersion(v[1..]);
      SplitDotsJoin(head, tail);
      assert PartValues([head] + SplitDots(tail)) == [PartValue(head)] + PartValues(SplitDots(tail)) by {
        assert ([head] + SplitDots(tail))[1..] == SplitDots(tail);
      }
      assert v == [v[0]] + v[1..];
    }
  }

  /** The version the legacy migration compares against. */
  lemma ParseVersion106()
    ensures ParseVersion("1.0.6") == [1, 0, 6]
  {
    assert RenderVersion([1, 0, 6]) == "1.0.6" by {
      assert RenderVersion([6]) == "6";
      assert RenderVersion([0, 6]) == "0.6";
    }
    ParseRenderRoundTrip([1, 0, 6]);
  }
}
