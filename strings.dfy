/** The string helpers the registrar relies on: Spring's
    StringUtils.collectionToCommaDelimitedString and ClassUtils.getPackageName,
    and Java's decimal rendering of a non-negative int. */
module Strings {

  /** collectionToCommaDelimitedString: the elements separated by ",", "" for no elements. */
  function JoinComma(parts: seq<string>): (r: string)
    ensures |parts| == 1 ==> r == parts[0]
  {
    if parts == [] then ""
    else if |parts| == 1 then parts[0]
    else parts[0] + "," + JoinComma(parts[1..])
  }

  /** The inverse of JoinComma: the pieces between commas (always at least one). */
  function SplitComma(s: string): (r: seq<string>)
    ensures |r| >= 1
    ensures forall k :: 0 <= k < |r| ==> ',' !in r[k]
    decreases |s|
  {
    if ',' !in s then [s]
    else
      var i := FirstIndex(s, ',');
      [s[..i]] + SplitComma(s[i + 1..])
  }

  /** The index of the first occurrence of `c` in `s`. */
  function FirstIndex(s: string, c: char): (i: nat)
    requires c in s
    ensures i < |s| && s[i] == c && c !in s[..i]
  {
    if s[0] == c then 0
    else
      assert c in s[1..] by { var k :| 0 <= k < |s| && s[k] == c; assert s[1..][k - 1] == c; }
      var j := FirstIndex(s[1..], c);
      assert s[..j + 1] == [s[0]] + s[1..][..j];
      j + 1
  }

  /** Splitting a comma-free piece followed by a comma splits off exactly that piece. */
  lemma SplitCons(p: string, rest: string)
    requires ',' !in p
    ensures SplitComma(p + "," + rest) == [p] + SplitComma(rest)
  {
    var s := p + "," + rest;
    assert s[|p|] == ',';
    assert s[..|p|] == p;
    assert FirstIndex(s, ',') == |p|;
    assert s[|p| + 1..] == rest;
  }

  /** Splitting the comma-joined list gives the list back, when no element holds a comma. */
  lemma {:induction false} SplitJoinComma(parts: seq<string>)
    requires |parts| >= 1
    requires forall k :: 0 <= k < |parts| ==> ',' !in parts[k]
    ensures SplitComma(JoinComma(parts)) == parts
  {
    if |parts| > 1 {
      SplitCons(parts[0], JoinComma(parts[1..]));
      SplitJoinComma(parts[1..]);
      assert parts == [parts[0]] + parts[1..];
    }
  }

  /** java.lang.String.lastIndexOf(c): the last index of `c`, or -1. */
  function LastIndexOf(s: string, c: char): (i: int)
    ensures -1 <= i < |s|
    ensures 0 <= i ==> s[i] == c
    ensures forall k :: i < k < |s| ==> s[k] != c
  {
    if s == [] then -1
    else
      var j := LastIndexOf(s[1..], c);
      if 0 <= j then j + 1
      else if s[0] == c then 0
      else -1
  }

  /** ClassUtils.getPackageName: everything before the last '.', or "" for a class in the default package. */
  function PackageName(className: string): (r: string)
    ensures '.' !in className ==> r == ""
    ensures '.' in className ==>
              |r| < |className| && className[..|r|] == r && className[|r|] == '.'
              && '.' !in className[|r| + 1..]
  {
    var i := LastIndexOf(className, '.');
    if i == -1 then "" else className[..i]
  }

  function DigitChar(d: nat): (c: char)
    requires d < 10
  {
    "0123456789"[d]
  }

  /** Integer.toString for a non-negative value. */
  function Decimal(n: nat): (r: string)
    ensures |r| >= 1
    ensures n >= 10 ==> |r| >= 2
  {
    if n < 10 then [DigitChar(n)] else Decimal(n / 10) + [DigitChar(n % 10)]
  }

  /** Distinct numbers have distinct decimal renderings. */
  lemma {:induction false} DecimalInjective(a: nat, b: nat)
    requires Decimal(a) == Decimal(b)
    ensures a == b
  {
    if a >= 10 && b >= 10 {
      var da, db := Decimal(a), Decimal(b);
      assert da[..|da| - 1] == Decimal(a / 10);
      assert db[..|db| - 1] == Decimal(b / 10);
      DecimalInjective(a / 10, b / 10);
      assert DigitChar(a % 10) == da[|da| - 1] == db[|db| - 1] == DigitChar(b % 10);
    }
  }
}
