/**
 * The pieces of the Java class library that the line interpreter relies on:
 * 32-bit `int` arithmetic, `String.startsWith`, `String.split(" ")` and
 * `Integer.parseInt`.  Java strings are modelled as `seq<char>`.
 */
module JavaLang {
  import opened Wrappers

  // ---------------------------------------------------------------------------
  // 32-bit int

  const IntMin: int := -0x8000_0000
  const IntMax: int := 0x7FFF_FFFF
  const IntModulus: int := 0x1_0000_0000

  /** Java's `int`. */
  type Int32 = x: int | IntMin <= x <= IntMax

  predicate InInt32(x: int) {
    IntMin <= x <= IntMax
  }

  /** The two's-complement wrap-around Java applies to the exact result of an `int` operation. */
  function Wrap32(x: int): (r: Int32)
    ensures (r - x) % IntModulus == 0
    ensures InInt32(x) ==> r == x
  {
    (x - IntMin) % IntModulus + IntMin
  }

  // ---------------------------------------------------------------------------
  // String.startsWith

  /** `s.startsWith(p)`. */
  predicate StartsWith(s: string, p: string) {
    |p| <= |s| && s[..|p|] == p
  }

  // ---------------------------------------------------------------------------
  // String.split(" ")

  predicate NoSpace(s: string) {
    forall i :: 0 <= i < |s| ==> s[i] != ' '
  }

  predicate AllSpaces(s: string) {
    forall i :: 0 <= i < |s| ==> s[i] == ' '
  }

  /**
   * The pieces of `s` between its spaces, before `split` drops trailing empty
   * strings: one more piece than `s` has spaces, empty pieces included.
   */
  function Fields(s: string): (r: seq<string>)
    ensures |r| >= 1
    ensures forall k :: 0 <= k < |r| ==> NoSpace(r[k])
  {
    if s == [] then [""]
    else if s[0] == ' ' then [""] + Fields(s[1..])
    else
      var f := Fields(s[1..]);
      [[s[0]] + f[0]] + f[1..]
  }

  /** The pieces joined back together with one space between neighbours. */
  function Join(fs: seq<string>): string
    requires |fs| >= 1
  {
    if |fs| == 1 then fs[0] else fs[0] + [' '] + Join(fs[1..])
  }

  /** `split` with limit 0 removes every trailing empty string. */
  function StripTrailingEmpty(fs: seq<string>): (r: seq<string>)
    ensures |r| <= |fs| && r == fs[..|r|]
    ensures r == [] || r[|r| - 1] != ""
    ensures forall k :: |r| <= k < |fs| ==> fs[k] == ""
  {
    if fs == [] then []
    else if fs[|fs| - 1] == "" then StripTrailingEmpty(fs[..|fs| - 1])
    else fs
  }

  /**
   * `s.split(" ")`.  When the separator does not occur the whole string is
   * the single piece (so `"".split(" ")` is `[""]`); otherwise the pieces
   * between the spaces, without the trailing empty ones.
   */
  function Split(s: string): (r: seq<string>)
    ensures forall k :: 0 <= k < |r| ==> NoSpace(r[k])
  {
    if NoSpace(s) then [s] else StripTrailingEmpty(Fields(s))
  }

  // ---------------------------------------------------------------------------
  // Integer.parseInt

  predicate IsDigit(c: char) {
    '0' <= c <= '9'
  }

  predicate AllDigits(s: string) {
    forall i :: 0 <= i < |s| ==> IsDigit(s[i])
  }

  /** The decimal value of a string of digits, most significant first. */
  function DigitsValue(s: string): (v: nat)
    requires AllDigits(s)
  {
    if s == [] then 0
    else DigitsValue(s[..|s| - 1]) * 10 + (s[|s| - 1] as int - '0' as int)
  }

  /**
   * `Integer.parseInt(s)`: `None` where Java throws `NumberFormatException`.
   * An optional leading `-` or `+`, then at least one digit, and the value
   * must fit in an `int`.
   */
  function ParseInt(s: string): (r: Option<Int32>)
  {
    if |s| == 0 then None
    else if s[0] == '-' || s[0] == '+' then
      if |s| == 1 || !AllDigits(s[1..]) then None
      else
        var v: int := if s[0] == '-' then -(DigitsValue(s[1..]) as int) else DigitsValue(s[1..]);
        if InInt32(v) then Some(v) else None
    else if AllDigits(s) then
      var v := DigitsValue(s);
      if InInt32(v) then Some(v) else None
    else None
  }

  /** The digits of `n` without leading zeros (`Integer.toString` of a non-negative value). */
  function NatDigits(n: nat): (s: string)
    ensures |s| >= 1 && AllDigits(s)
  {
    if n < 10 then [('0' as int + n) as char]
    else NatDigits(n / 10) + [('0' as int + n % 10) as char]
  }

  /** `Integer.toString(n)`. */
  function IntToString(n: Int32): string {
    if n < 0 then "-" + NatDigits(-(n as int)) else NatDigits(n)
  }
}
