/**
 * The version string `"<major>.<minor>"` that `onHeadersComplete` builds
 * with a StringBuffer, and a reader that recovers both numbers from it.
 */
module HttpVersion {
  import opened Strings

  predicate IsDigit(c: char)
  {
    '0' <= c <= '9'
  }

  predicate AllDigits(s: Str)
  {
    forall i :: 0 <= i < |s| ==> IsDigit(s[i])
  }

  function DigitChar(d: nat): (c: char)
    requires d < 10
    ensures IsDigit(c)
  {
    ('0' as int + d) as char
  }

  /** The decimal form of a number, without sign or leading zeros, as `StringBuffer::append` writes it. */
  function Decimal(n: nat): (s: Str)
    ensures |s| >= 1 && AllDigits(s)
    ensures |s| > 1 ==> s[0] != '0'
  {
    if n < 10 then [DigitChar(n)] else Decimal(n / 10) + [DigitChar(n % 10)]
  }

  /** The number a string of decimal digits denotes. */
  function DecimalValue(s: Str): nat
    requires AllDigits(s)
  {
    if s == [] then 0
    else DecimalValue(s[..|s| - 1]) * 10 + (s[|s| - 1] as int - '0' as int)
  }

  lemma {:induction false} DecimalRoundTrip(n: nat)
    ensures DecimalValue(Decimal(n)) == n
  {
    if n >= 10 {
      DecimalRoundTrip(n / 10);
      var s := Decimal(n);
      assert s[..|s| - 1] == Decimal(n / 10);
    }
  }

  /** The version string built from the major and minor numbers: two runs of digits around one dot. */
  function VersionString(major: nat, minor: nat): (s: Str)
    ensures |s| == |Decimal(major)| + 1 + |Decimal(minor)| && s[|Decimal(major)|] == '.'
    ensures AllDigits(s[..|Decimal(major)|]) && AllDigits(s[|Decimal(major)| + 1..])
  {
    Decimal(major) + "." + Decimal(minor)
  }

  /** The index of the first '.', or the length when there is none. */
  function FirstDot(s: Str): (k: nat)
    ensures k <= |s|
    ensures k < |s| ==> s[k] == '.'
    ensures forall i :: 0 <= i < k ==> s[i] != '.'
  {
    if s == [] then 0 else if s[0] == '.' then 0 else 1 + FirstDot(s[1..])
  }

  /** Reads `"<major>.<minor>"` back; anything else is rejected. */
  function ParseVersion(s: Str): (r: Option<(nat, nat)>)
    ensures r.Some? ==> exists k :: 0 <= k < |s| && s[k] == '.' && AllDigits(s[..k]) && AllDigits(s[k + 1..])
  {
    var k := FirstDot(s);
    if k == |s| then None
    else
      var major, minor := s[..k], s[k + 1..];
      if major != [] && minor != [] && AllDigits(major) && AllDigits(minor)
      then Some((DecimalValue(major), DecimalValue(minor)))
      else None
  }

  /** The version string determines both numbers: reading it back gives them. */
  lemma VersionRoundTrip(major: nat, minor: nat)
    ensures ParseVersion(VersionString(major, minor)) == Some((major, minor))
  {
    var d, e := Decimal(major), Decimal(minor);
    var s := VersionString(major, minor);
    assert s == d + ['.'] + e;
    var k := FirstDot(s);
    assert s[|d|] == '.';
    assert k < |d| ==> IsDigit(s[k]);
    assert k == |d|;
    assert s[..|d|] == d && s[|d| + 1..] == e;
    DecimalRoundTrip(major);
    DecimalRoundTrip(minor);
  }

  /** Different versions give different strings. */
  lemma VersionStringInjective(a: nat, b: nat, c: nat, d: nat)
    requires VersionString(a, b) == VersionString(c, d)
    ensures a == c && b == d
  {
    VersionRoundTrip(a, b);
    VersionRoundTrip(c, d);
  }
}
