/** The string operations behind the SQL-fragment builder: rendering a
    non-negative index in decimal (Python's `'{}'.format(i)`) and joining
    fragments with commas (`",".join(...)`), each with its inverse
    (decimal parsing, comma splitting) so that round trips can be stated. */
module Text {

  predicate IsDigit(c: char) {
    '0' <= c <= '9'
  }

  predicate AllDigits(s: string) {
    forall i :: 0 <= i < |s| ==> IsDigit(s[i])
  }

  function DigitChar(d: nat): (c: char)
    requires d < 10
    ensures IsDigit(c)
  {
    ('0' as int + d) as char
  }

  function DigitValue(c: char): nat {
    if IsDigit(c) then c as int - '0' as int else 0
  }

  /** Decimal rendering without leading zeros. */
  function NatToString(n: nat): (s: string)
    ensures |s| >= 1 && AllDigits(s)
  {
    if n < 10 then [DigitChar(n)] else NatToString(n / 10) + [DigitChar(n % 10)]
  }

  /** Reads a string of decimal digits back as a number. */
  function ParseNat(s: string): nat {
    if |s| == 0 then 0 else ParseNat(s[..|s| - 1]) * 10 + DigitValue(s[|s| - 1])
  }

  lemma {:induction false} ParseNatToString(n: nat)
    ensures ParseNat(NatToString(n)) == n
  {
    var s := NatToString(n);
    if n >= 10 {
      assert s[..|s| - 1] == NatToString(n / 10);
      ParseNatToString(n / 10);
    }
  }

  /** Distinct indices render as distinct strings. */
  lemma NatToStringInjective(a: nat, b: nat)
    ensures NatToString(a) == NatToString(b) ==> a == b
  {
    ParseNatToString(a);
    ParseNatToString(b);
  }

  /** `",".join(parts)`. */
  function JoinCommas(parts: seq<string>): (s: string)
    ensures |parts| > 0 ==> |s| >= |parts[0]|
  {
    if |parts| == 0 then ""
    else if |parts| == 1 then parts[0]
    else parts[0] + "," + JoinCommas(parts[1..])
  }

  /** Every field between commas, including empty ones; never empty. */
  function Fields(s: string): (fs: seq<string>)
    ensures |fs| >= 1
  {
    if |s| == 0 then [""]
    else if s[0] == ',' then [""] + Fields(s[1..])
    else
      var rest := Fields(s[1..]);
      [[s[0]] + rest[0]] + rest[1..]
  }

  /** Splits a comma-separated list; the empty string is the empty list. */
  function SplitCommas(s: string): seq<string> {
    if |s| == 0 then [] else Fields(s)
  }

  predicate CommaFree(p: string) {
    ',' !in p
  }

  lemma {:induction false} FieldsOfCommaFree(p: string, rest: string)
    requires CommaFree(p)
    ensures Fields(p) == [p]
    ensures Fields(p + "," + rest) == [p] + Fields(rest)
  {
    if |p| == 0 {
      assert (p + "," + rest)[1..] == rest;
    } else {
      FieldsOfCommaFree(p[1..], rest);
      assert (p + "," + rest)[1..] == p[1..] + "," + rest;
      assert [p[0]] + p[1..] == p;
    }
  }

  lemma {:induction false} FieldsJoin(parts: seq<string>)
    requires |parts| > 0
    requires forall i :: 0 <= i < |parts| ==> CommaFree(parts[i])
    ensures Fields(JoinCommas(parts)) == parts
  {
    if |parts| == 1 {
      FieldsOfCommaFree(parts[0], "");
    } else {
      FieldsOfCommaFree(parts[0], JoinCommas(parts[1..]));
      FieldsJoin(parts[1..]);
      assert [parts[0]] + parts[1..] == parts;
    }
  }

  /** Splitting undoes joining whenever no part is empty or holds a comma. */
  lemma SplitJoin(parts: seq<string>)
    requires forall i :: 0 <= i < |parts| ==> CommaFree(parts[i]) && parts[i] != ""
    ensures SplitCommas(JoinCommas(parts)) == parts
  {
    if |parts| > 0 {
      FieldsJoin(parts);
    }
  }
}
