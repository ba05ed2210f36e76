/** String helpers used by the chunker: decimal rendering of block indices
    (Python's `f"{i}"`), `filter(None, ...)` over strings, `" ".join(...)`
    and the word count behind `str.split()`. */
module Text {

  predicate IsDigit(c: char) {
    '0' <= c <= '9'
  }

  predicate AllDigits(s: string) {
    forall k :: 0 <= k < |s| ==> IsDigit(s[k])
  }

  function DigitChar(d: nat): (c: char)
    requires d < 10
    ensures IsDigit(c) && c as int - '0' as int == d
  {
    (d + '0' as int) as char
  }

  /** The decimal rendering of a non-negative integer, as `str(n)` gives it. */
  function Decimal(n: nat): (r: string)
    ensures 1 <= |r| && AllDigits(r)
    ensures |r| == 1 <==> n < 10
    ensures |r| > 1 ==> r[0] != '0'
    ensures r[0] == '0' <==> n == 0
    decreases n
  {
    if n < 10 then [DigitChar(n)] else Decimal(n / 10) + [DigitChar(n % 10)]
  }

  /** The value a string of decimal digits denotes (the inverse of `Decimal`). */
  function DigitsValue(s: string): nat
    requires AllDigits(s)
  {
    if s == [] then 0
    else DigitsValue(s[..|s| - 1]) * 10 + (s[|s| - 1] as int - '0' as int)
  }

  lemma {:induction false} DecimalRoundTrip(n: nat)
    ensures DigitsValue(Decimal(n)) == n
    decreases n
  {
    if n >= 10 {
      var d := Decimal(n);
      assert d[..|d| - 1] == Decimal(n / 10);
      DecimalRoundTrip(n / 10);
    }
  }

  /** Distinct indices render to distinct decimal strings. */
  lemma DecimalInjective(a: nat, b: nat)
    ensures Decimal(a) == Decimal(b) ==> a == b
  {
    DecimalRoundTrip(a);
    DecimalRoundTrip(b);
  }

  /** `filter(None, parts)` on a list of strings: the falsy value of a string is "". */
  function NonEmpty(parts: seq<string>): (r: seq<string>)
    ensures |r| <= |parts|
    ensures forall k :: 0 <= k < |r| ==> r[k] != ""
    ensures forall k :: 0 <= k < |parts| && parts[k] != "" ==> parts[k] in r
    ensures forall x :: x in r ==> x in parts
  {
    if parts == [] then []
    else (if parts[0] == "" then [] else [parts[0]]) + NonEmpty(parts[1..])
  }

  /** A single string survives the filter exactly when it is non-empty;
      with `NonEmptyAppend` this fixes the filter's order and multiplicity. */
  lemma NonEmptySingleton(x: string)
    ensures NonEmpty([x]) == (if x == "" then [] else [x])
  {
    assert [x][1..] == [];
  }

  lemma {:induction false} NonEmptyAppend(a: seq<string>, b: seq<string>)
    ensures NonEmpty(a + b) == NonEmpty(a) + NonEmpty(b)
  {
    if a != [] {
      assert (a + b)[1..] == a[1..] + b;
      NonEmptyAppend(a[1..], b);
    } else {
      assert a + b == b;
    }
  }

  /** `" ".join(parts)`. */
  function JoinSpace(parts: seq<string>): (r: string)
    ensures parts == [] ==> r == ""
    ensures parts != [] ==> |parts[0]| <= |r| && r[..|parts[0]|] == parts[0]
    ensures |r| + 1 >= |parts|
  {
    if parts == [] then ""
    else if |parts| == 1 then parts[0]
    else parts[0] + " " + JoinSpace(parts[1..])
  }

  /** Joining one more part adds one separator and the part at the end. */
  lemma {:induction false} JoinSpaceSnoc(parts: seq<string>, last: string)
    requires parts != []
    ensures JoinSpace(parts + [last]) == JoinSpace(parts) + " " + last
    decreases |parts|
  {
    if |parts| == 1 {
      assert parts + [last] == [parts[0], last];
    } else {
      assert (parts + [last])[1..] == parts[1..] + [last];
      JoinSpaceSnoc(parts[1..], last);
    }
  }

  /** The joined string holds each part's characters plus one space between neighbours. */
  lemma {:induction false} JoinSpaceLength(parts: seq<string>)
    requires parts != []
    ensures |JoinSpace(parts)| == TotalLength(parts) + |parts| - 1
  {
    if |parts| > 1 {
      JoinSpaceLength(parts[1..]);
    }
  }

  function TotalLength(parts: seq<string>): nat
  {
    if parts == [] then 0 else |parts[0]| + TotalLength(parts[1..])
  }

  /** The separators `str.split()` is modelled with: space, \t, \n, \r, \v and \f. */
  predicate IsSpace(c: char) {
    c == ' ' || c == '\t' || c == '\n' || c == '\r' || c == '\U{B}' || c == '\U{C}'
  }

  /** `len(s.split())`: the number of maximal runs of non-whitespace characters. */
  function WordCount(s: string): (r: nat)
    ensures r <= |s|
    ensures r == 0 <==> forall k :: 0 <= k < |s| ==> IsSpace(s[k])
  {
    if s == [] then 0
    else WordCount(s[..|s| - 1])
         + (if !IsSpace(s[|s| - 1]) && (|s| == 1 || IsSpace(s[|s| - 2])) then 1 else 0)
  }
}
