/** String helpers for names the subscribers report: `",".join(...)`,
    decimal rendering of partition numbers and `f"{prefix}{name}"`. */
module Text {

  /** `sep.join(parts)`. */
  function Join(sep: string, parts: seq<string>): (r: string)
    ensures parts == [] ==> r == ""
    ensures |parts| == 1 ==> r == parts[0]
  {
    if parts == [] then ""
    else if |parts| == 1 then parts[0]
    else parts[0] + sep + Join(sep, parts[1..])
  }

  function DigitChar(d: int): (c: char)
    requires 0 <= d < 10
    ensures '0' <= c <= '9'
  {
    ['0', '1', '2', '3', '4', '5', '6', '7', '8', '9'][d]
  }

  /** The decimal rendering of a natural number, most significant digit first. */
  function Digits(n: nat): (r: string)
    ensures |r| > 0
    ensures forall i :: 0 <= i < |r| ==> '0' <= r[i] <= '9'
    decreases n
  {
    if n < 10 then [DigitChar(n)] else Digits(n / 10) + [DigitChar(n % 10)]
  }

  /** `str(n)` for an integer. */
  function Decimal(n: int): (r: string)
    ensures |r| > 0
    ensures n >= 0 ==> r == Digits(n)
    ensures n < 0 ==> r == "-" + Digits(-n)
  {
    if n >= 0 then Digits(n) else "-" + Digits(-n)
  }

  /** Every name with the prefix in front, in order. */
  function PrefixAll(prefix: string, names: seq<string>): (r: seq<string>)
    ensures |r| == |names|
    ensures forall i :: 0 <= i < |names| ==> r[i] == prefix + names[i]
  {
    seq(|names|, i requires 0 <= i < |names| => prefix + names[i])
  }

  /** An empty prefix leaves every name as it was. */
  lemma EmptyPrefixAll(names: seq<string>)
    ensures PrefixAll("", names) == names
  {
    assert forall i :: 0 <= i < |names| ==> "" + names[i] == names[i];
  }

  /** Prefixing with `a` and then with `b` is prefixing with `b + a`. */
  lemma PrefixAllTwice(a: string, b: string, names: seq<string>)
    ensures PrefixAll(b, PrefixAll(a, names)) == PrefixAll(b + a, names)
  {
    forall i | 0 <= i < |names|
      ensures PrefixAll(b, PrefixAll(a, names))[i] == PrefixAll(b + a, names)[i]
    {
      assert b + (a + names[i]) == (b + a) + names[i];
    }
  }
}
