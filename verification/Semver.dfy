/** Protocol version negotiation, with the precedence rules of Semantic Versioning 2.0.0. */
module Semver {
  import opened Common
  import opened Orders

  datatype Version = Version(major: nat, minor: nat, patch: nat, prerelease: Option<seq<string>>, original: string)

  // ----- The comparator of the program -----

  function CompareChars(a: char, b: char): int {
    if a < b then -1 else if a > b then 1 else 0
  }

  /** The `<` and `>` of strings. */
  function CompareText(a: string, b: string): int {
    Lex(a, b, CompareChars)
  }

  predicate Digit(c: char) {
    '0' <= c <= '9'
  }

  predicate Numeric(s: string) {
    s != "" && forall i :: 0 <= i < |s| ==> Digit(s[i])
  }

  function ComparePrereleaseIdentifier(left: string, right: string): int {
    if Numeric(left) && Numeric(right) then
      if |left| != |right| then |left| - |right| else CompareText(left, right)
    else if Numeric(left) != Numeric(right) then
      if Numeric(left) then -1 else 1
    else CompareText(left, right)
  }

  function ComparePrereleases(left: Option<seq<string>>, right: Option<seq<string>>): int {
    if left.None? || right.None? then
      if left == right then 0 else if left.None? then 1 else -1
    else Lex(left.value, right.value, ComparePrereleaseIdentifier)
  }

  function CompareVersions(left: Version, right: Version): int {
    if left.major != right.major then left.major - right.major
    else if left.minor != right.minor then left.minor - right.minor
    else if left.patch != right.patch then left.patch - right.patch
    else ComparePrereleases(left.prerelease, right.prerelease)
  }

  lemma {:induction false} LexFrom(left: seq<string>, right: seq<string>, k: nat)
    requires k <= |left| && k <= |right|
    requires forall i :: 0 <= i < k ==> ComparePrereleaseIdentifier(left[i], right[i]) == 0
    ensures Lex(left, right, ComparePrereleaseIdentifier) == Lex(left[k..], right[k..], ComparePrereleaseIdentifier)
  {
    if k == 0 {
      assert left[0..] == left && right[0..] == right;
    } else {
      LexFrom(left[1..], right[1..], k - 1);
      assert left[1..][k - 1..] == left[k..] && right[1..][k - 1..] == right[k..];
    }
  }

  /** The index loop of the program computes the lexicographic comparison. */
  method ComparePrerelease(left: Option<seq<string>>, right: Option<seq<string>>) returns (r: int)
    ensures r == ComparePrereleases(left, right)
  {
    hide ComparePrereleaseIdentifier;
    if left.None? || right.None? {
      return if left == right then 0 else if left.None? then 1 else -1;
    }
    var l, r' := left.value, right.value;
    var index := 0;
    while index < (if |l| > |r'| then |l| else |r'|)
      invariant index <= |l| && index <= |r'|
      invariant forall i :: 0 <= i < index ==> ComparePrereleaseIdentifier(l[i], r'[i]) == 0
    {
      LexFrom(l, r', index);
      if index >= |l| || index >= |r'| {
        return if index >= |l| && index >= |r'| then 0 else if index >= |l| then -1 else 1;
      }
      var comparison := ComparePrereleaseIdentifier(l[index], r'[index]);
      if comparison != 0 {
        return comparison;
      }
      index := index + 1;
    }
    LexFrom(l, r', index);
    return 0;
  }

  // ----- It is an order -----

  lemma CharsOrdered()
    ensures TotalOrder(CompareChars)
  {
  }

  lemma IdentifierFlip(a: string, b: string)
    ensures ComparePrereleaseIdentifier(a, b) == 0 <==> a == b
    ensures ComparePrereleaseIdentifier(a, b) < 0 ==> ComparePrereleaseIdentifier(b, a) > 0
    ensures ComparePrereleaseIdentifier(a, b) > 0 ==> ComparePrereleaseIdentifier(b, a) < 0
  {
    CharsOrdered();
    LexFlip(a, b, CompareChars);
  }

  lemma IdentifierTransitive(a: string, b: string, c: string)
    requires ComparePrereleaseIdentifier(a, b) < 0 && ComparePrereleaseIdentifier(b, c) < 0
    ensures ComparePrereleaseIdentifier(a, c) < 0
  {
    CharsOrdered();
    if CompareText(a, b) < 0 && CompareText(b, c) < 0 {
      LexTransitive(a, b, c, CompareChars);
    }
  }

  lemma IdentifiersOrdered()
    ensures TotalOrder(ComparePrereleaseIdentifier)
  {
    hide ComparePrereleaseIdentifier;
    forall a, b
      ensures ComparePrereleaseIdentifier(a, b) == 0 <==> a == b
      ensures ComparePrereleaseIdentifier(a, b) < 0 ==> ComparePrereleaseIdentifier(b, a) > 0
      ensures ComparePrereleaseIdentifier(a, b) > 0 ==> ComparePrereleaseIdentifier(b, a) < 0
    {
      IdentifierFlip(a, b);
    }
    forall a, b, c | ComparePrereleaseIdentifier(a, b) < 0 && ComparePrereleaseIdentifier(b, c) < 0
      ensures ComparePrereleaseIdentifier(a, c) < 0
    {
      IdentifierTransitive(a, b, c);
    }
  }

  /** Two versions have the same rank when they differ at most in their build metadata. */
  ghost predicate SameRank(a: Version, b: Version) {
    a.major == b.major && a.minor == b.minor && a.patch == b.patch && a.prerelease == b.prerelease
  }

  lemma VersionFlip(a: Version, b: Version)
    ensures CompareVersions(a, b) == 0 <==> SameRank(a, b)
    ensures CompareVersions(a, b) < 0 <==> CompareVersions(b, a) > 0
  {
    hide ComparePrereleaseIdentifier;
    IdentifiersOrdered();
    if a.prerelease.Some? && b.prerelease.Some? {
      LexFlip(a.prerelease.value, b.prerelease.value, ComparePrereleaseIdentifier);
      LexFlip(b.prerelease.value, a.prerelease.value, ComparePrereleaseIdentifier);
    }
  }

  /** The comparator is a total preorder, so sorting with it is meaningful. */
  lemma VersionTransitive(a: Version, b: Version, c: Version)
    requires CompareVersions(a, b) <= 0 && CompareVersions(b, c) <= 0
    ensures CompareVersions(a, c) <= 0
    ensures CompareVersions(a, b) < 0 || CompareVersions(b, c) < 0 ==> CompareVersions(a, c) < 0
  {
    hide ComparePrereleaseIdentifier;
    IdentifiersOrdered();
    VersionFlip(a, b);
    VersionFlip(b, c);
    if a.prerelease.Some? && b.prerelease.Some? && c.prerelease.Some?
       && Lex(a.prerelease.value, b.prerelease.value, ComparePrereleaseIdentifier) < 0
       && Lex(b.prerelease.value, c.prerelease.value, ComparePrereleaseIdentifier) < 0 {
      LexTransitive(a.prerelease.value, b.prerelease.value, c.prerelease.value, ComparePrereleaseIdentifier);
    }
  }

  // ----- Section 11 of Semantic Versioning 2.0.0 -----

  function Pow10(n: nat): (p: nat)
    ensures p >= 1
  {
    if n == 0 then 1 else 10 * Pow10(n - 1)
  }

  function DigitValue(c: char): (d: nat)
    ensures Digit(c) ==> d <= 9
  {
    if Digit(c) then c as int - '0' as int else 0
  }

  /** The number that a string of digits writes down. */
  function Value(s: string): nat {
    if s == "" then 0 else 10 * Value(s[..|s| - 1]) + DigitValue(s[|s| - 1])
  }

  /** Identifiers as section 9 allows them: not empty, and no leading zeros in numeric ones. */
  ghost predicate ValidIdentifier(s: string) {
    s != "" && (Numeric(s) && |s| > 1 ==> s[0] != '0')
  }

  /** 11.4.1 to 11.4.3: numeric identifiers numerically, others in ASCII order, numeric ones first. */
  ghost predicate IdentifierPrecedes(a: string, b: string) {
    if Numeric(a) && Numeric(b) then Value(a) < Value(b)
    else if Numeric(a) != Numeric(b) then Numeric(a)
    else exists k :: DecidedAt(a, b, CompareChars, k)
  }

  /** 11.4 and 11.4.4: the first difference decides; if there is none, the longer list is higher. */
  ghost predicate PrereleasePrecedes(a: seq<string>, b: seq<string>) {
    exists k :: && 0 <= k <= |a| && k < |b| && a[..k] == b[..k] && (k == |a| || IdentifierPrecedes(a[k], b[k]))
  }

  /** 11.2 and 11.3: major, minor and patch numerically; a prerelease precedes its release. */
  ghost predicate Precedes(a: Version, b: Version) {
    if a.major != b.major then a.major < b.major
    else if a.minor != b.minor then a.minor < b.minor
    else if a.patch != b.patch then a.patch < b.patch
    else match (a.prerelease, b.prerelease)
      case (Some(p), Some(q)) => PrereleasePrecedes(p, q)
      case (Some(_), None) => true
      case (None, _) => false
  }

  ghost predicate ValidVersion(v: Version) {
    v.prerelease.Some? ==> forall i :: 0 <= i < |v.prerelease.value| ==> ValidIdentifier(v.prerelease.value[i])
  }

  lemma {:induction false} ValueBound(s: string)
    requires forall i :: 0 <= i < |s| ==> Digit(s[i])
    ensures Value(s) < Pow10(|s|)
    ensures s != "" && s[0] != '0' ==> Value(s) >= Pow10(|s| - 1)
  {
    if s != "" {
      ValueBound(s[..|s| - 1]);
    }
  }

  /** Between digit strings of equal length, text order is numeric order. */
  lemma {:induction false} TextIsNumeric(a: string, b: string)
    requires |a| == |b|
    requires forall i :: 0 <= i < |a| ==> Digit(a[i]) && Digit(b[i])
    ensures CompareText(a, b) < 0 <==> Value(a) < Value(b)
    ensures CompareText(a, b) == 0 <==> Value(a) == Value(b)
  {
    if a != "" {
      var n := |a| - 1;
      TextIsNumeric(a[..n], b[..n]);
      LexSnoc(a[..n], b[..n], a[n], b[n], CompareChars);
      assert a == a[..n] + [a[n]] && b == b[..n] + [b[n]];
    }
  }

  lemma {:induction false} PowGrows(m: nat, n: nat)
    requires m <= n
    ensures Pow10(m) <= Pow10(n)
    decreases n - m
  {
    if m < n {
      PowGrows(m, n - 1);
    }
  }

  /** Without leading zeros, a longer number is larger. */
  lemma LongerIsLarger(a: string, b: string)
    requires Numeric(a) && Numeric(b) && |a| < |b| && b[0] != '0'
    ensures Value(a) < Value(b)
  {
    ValueBound(a);
    ValueBound(b);
    PowGrows(|a|, |b| - 1);
  }

  lemma IdentifierComparison(a: string, b: string)
    requires ValidIdentifier(a) && ValidIdentifier(b)
    ensures ComparePrereleaseIdentifier(a, b) < 0 <==> IdentifierPrecedes(a, b)
  {
    if Numeric(a) && Numeric(b) {
      if |a| < |b| {
        LongerIsLarger(a, b);
      } else if |b| < |a| {
        LongerIsLarger(b, a);
      } else {
        TextIsNumeric(a, b);
      }
    } else {
      CharsOrdered();
      LexDecided(a, b, CompareChars);
    }
  }

  /** The comparator is the precedence of section 11: length first and text second is as good as
      comparing numbers, of whatever size. */
  lemma ComparatorIsPrecedence(a: Version, b: Version)
    requires ValidVersion(a) && ValidVersion(b)
    ensures CompareVersions(a, b) < 0 <==> Precedes(a, b)
    ensures CompareVersions(a, b) > 0 <==> Precedes(b, a)
    ensures CompareVersions(a, b) == 0 <==> SameRank(a, b)
  {
    hide CompareVersions; hide Precedes; hide ValidVersion;
    VersionFlip(a, b);
    VersionFlip(b, a);
    ComparatorBelow(a, b);
    ComparatorBelow(b, a);
  }

  lemma ComparatorBelow(a: Version, b: Version)
    requires ValidVersion(a) && ValidVersion(b)
    ensures CompareVersions(a, b) < 0 <==> Precedes(a, b)
  {
    if a.prerelease.Some? && b.prerelease.Some? {
      PrereleaseComparison(a.prerelease.value, b.prerelease.value);
    }
  }

  /** The same, with the comparator's verdict on the deciding identifiers. */
  lemma DecidedByPrecedence(p: seq<string>, q: seq<string>, k: int)
    requires forall i :: 0 <= i < |p| ==> ValidIdentifier(p[i])
    requires forall i :: 0 <= i < |q| ==> ValidIdentifier(q[i])
    ensures DecidedAt(p, q, ComparePrereleaseIdentifier, k) <==>
      && 0 <= k <= |p| && k < |q| && p[..k] == q[..k] && (k == |p| || IdentifierPrecedes(p[k], q[k]))
  {
    hide ComparePrereleaseIdentifier; hide IdentifierPrecedes; hide ValidIdentifier;
    if 0 <= k < |p| && k < |q| {
      IdentifierComparison(p[k], q[k]);
    }
  }

  lemma PrereleaseComparison(p: seq<string>, q: seq<string>)
    requires forall i :: 0 <= i < |p| ==> ValidIdentifier(p[i])
    requires forall i :: 0 <= i < |q| ==> ValidIdentifier(q[i])
    ensures Lex(p, q, ComparePrereleaseIdentifier) < 0 <==> PrereleasePrecedes(p, q)
  {
    hide ComparePrereleaseIdentifier; hide IdentifierPrecedes; hide ValidIdentifier; hide DecidedAt; hide Lex;
    IdentifiersOrdered();
    LexDecided(p, q, ComparePrereleaseIdentifier);
    if k :| DecidedAt(p, q, ComparePrereleaseIdentifier, k) {
      DecidedByPrecedence(p, q, k);
    }
    if PrereleasePrecedes(p, q) {
      var k :| 0 <= k <= |p| && k < |q| && p[..k] == q[..k] && (k == |p| || IdentifierPrecedes(p[k], q[k]));
      DecidedByPrecedence(p, q, k);
    }
  }
}
