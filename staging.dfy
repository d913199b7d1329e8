/** Multer's disk storage rule: a staged file is named
    `<Date.now()>-<originalname>` inside the uploads directory. The timestamp
    is rendered in decimal, so the name can be split back at its first '-'. */
module Staging {
  import opened Records

  predicate IsDigit(c: char)
  {
    '0' <= c <= '9'
  }

  predicate AllDigits(s: string)
  {
    forall i :: 0 <= i < |s| ==> IsDigit(s[i])
  }

  function DigitValue(c: char): nat
    requires IsDigit(c)
  {
    (c as int) - ('0' as int)
  }

  function DigitChar(d: nat): (c: char)
    requires d < 10
    ensures IsDigit(c) && DigitValue(c) == d
  {
    (('0' as int) + d) as char
  }

  /** The decimal text of a millisecond timestamp, as a template literal renders it. */
  function Decimal(n: nat): (s: string)
    ensures |s| > 0 && AllDigits(s)
    ensures n > 0 ==> s[0] != '0'
  {
    if n < 10 then [DigitChar(n)] else Decimal(n / 10) + [DigitChar(n % 10)]
  }

  /** The number a string of decimal digits denotes. */
  function DecimalValue(s: string): nat
    requires AllDigits(s)
  {
    if s == [] then 0 else 10 * DecimalValue(s[..|s| - 1]) + DigitValue(s[|s| - 1])
  }

  lemma {:induction false} DecimalRoundTrip(n: nat)
    ensures DecimalValue(Decimal(n)) == n
  {
    if n >= 10 {
      var s := Decimal(n);
      assert s[..|s| - 1] == Decimal(n / 10);
      DecimalRoundTrip(n / 10);
    }
  }

  /** The name multer gives a file uploaded at `timestamp` as `originalName`. */
  function StagedName(timestamp: nat, originalName: string): (name: string)
    ensures |name| >= |originalName| + 2
    ensures name[|name| - |originalName| - 1..] == "-" + originalName
    ensures IsDigit(name[0])
  {
    Decimal(timestamp) + "-" + originalName
  }

  /** The number of digits a string starts with. */
  function LeadingDigits(s: string): (k: nat)
    ensures k <= |s|
  {
    if s == [] || !IsDigit(s[0]) then 0 else 1 + LeadingDigits(s[1..])
  }

  lemma {:induction false} LeadingDigitsOf(digits: string, rest: string)
    requires AllDigits(digits)
    requires rest == [] || !IsDigit(rest[0])
    ensures LeadingDigits(digits + rest) == |digits|
  {
    if digits != [] {
      assert (digits + rest)[1..] == digits[1..] + rest;
      LeadingDigitsOf(digits[1..], rest);
    }
  }

  /** Splits a staged name back into its timestamp and original name. */
  function SplitStagedName(name: string): Option<(nat, string)>
  {
    var k := LeadingDigits(name);
    if 0 < k < |name| && name[k] == '-' then
      assert AllDigits(name[..k]) by { LeadingDigitsAreDigits(name); }
      Some((DecimalValue(name[..k]), name[k + 1..]))
    else
      None
  }

  lemma {:induction false} LeadingDigitsAreDigits(s: string)
    ensures AllDigits(s[..LeadingDigits(s)])
  {
    if s != [] && IsDigit(s[0]) {
      LeadingDigitsAreDigits(s[1..]);
      assert s[..LeadingDigits(s)] == [s[0]] + s[1..][..LeadingDigits(s[1..])];
    }
  }

  lemma {:induction false} StagedNameRoundTrip(timestamp: nat, originalName: string)
    ensures SplitStagedName(StagedName(timestamp, originalName)) == Some((timestamp, originalName))
  {
    var d := Decimal(timestamp);
    var name := StagedName(timestamp, originalName);
    assert name == d + ("-" + originalName);
    LeadingDigitsOf(d, "-" + originalName);
    assert name[..|d|] == d;
    assert name[|d| + 1..] == originalName;
    DecimalRoundTrip(timestamp);
  }

  /** Two staged names collide exactly when both the millisecond and the
      original name agree. */
  lemma StagedNamesCollide(t1: nat, o1: string, t2: nat, o2: string)
    ensures StagedName(t1, o1) == StagedName(t2, o2) <==> t1 == t2 && o1 == o2
  {
    StagedNameRoundTrip(t1, o1);
    StagedNameRoundTrip(t2, o2);
  }
}
