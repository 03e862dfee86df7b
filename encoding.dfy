/** Renderings the mapping uses to build entity keys: `BigInt.toString()` (decimal) and
    `Bytes.toHex()` (lower-case hexadecimal with a "0x" prefix), together with the facts
    that make composite keys built from them unambiguous. */
module Encoding {

  /** One byte of an event's `Bytes`/`Address` parameter. */
  newtype byte = x: int | 0 <= x < 256

  /** An account address as it arrives in an event: raw bytes (20 of them on chain). */
  type Address = seq<byte>

  predicate IsDigit(c: char) {
    '0' <= c <= '9'
  }

  predicate AllDigits(s: string) {
    forall i :: 0 <= i < |s| ==> IsDigit(s[i])
  }

  predicate IsLowerHexDigit(c: char) {
    '0' <= c <= '9' || 'a' <= c <= 'f'
  }

  /** True when `s` contains no '-', the separator of composite keys. */
  predicate NoDash(s: string) {
    forall i :: 0 <= i < |s| ==> s[i] != '-'
  }

  function DigitChar(d: nat): (c: char)
    requires d < 10
    ensures IsDigit(c)
  {
    ('0' as int + d) as char
  }

  /** The value of a decimal digit; the inverse of DigitChar. */
  function DigitValue(c: char): (d: nat)
    requires IsDigit(c)
    ensures d < 10 && DigitChar(d) == c
  {
    c as int - '0' as int
  }

  /** `BigInt.toString()` of a non-negative integer: its base-10 digits, most significant
      first, without leading zeros. */
  function DecimalString(n: nat): (s: string)
    ensures 1 <= |s| && AllDigits(s)
    ensures s[0] == '0' ==> n == 0
    ensures |s| == 1 <==> n < 10
    decreases n
  {
    if n < 10 then [DigitChar(n)] else DecimalString(n / 10) + [DigitChar(n % 10)]
  }

  /** Reads a string of decimal digits back as a number. */
  function DecimalValue(s: string): nat
    requires AllDigits(s)
  {
    if s == [] then 0 else DecimalValue(s[..|s| - 1]) * 10 + DigitValue(s[|s| - 1])
  }

  lemma {:induction false} DecimalRoundTrip(n: nat)
    ensures DecimalValue(DecimalString(n)) == n
    decreases n
  {
    if n >= 10 {
      var s := DecimalString(n / 10);
      DecimalRoundTrip(n / 10);
      assert (s + [DigitChar(n % 10)])[..|s|] == s;
    }
  }

  /** Distinct numbers render to distinct decimal strings. */
  lemma DecimalInjective(a: nat, b: nat)
    ensures DecimalString(a) == DecimalString(b) <==> a == b
  {
    DecimalRoundTrip(a);
    DecimalRoundTrip(b);
  }

  /** Decimal renderings never contain the key separator '-'. */
  lemma DecimalHasNoDash(n: nat)
    ensures NoDash(DecimalString(n))
  {
  }

  function HexDigit(d: nat): (c: char)
    requires d < 16
    ensures IsLowerHexDigit(c)
  {
    if d < 10 then ('0' as int + d) as char else ('a' as int + d - 10) as char
  }

  /** Two lower-case hex digits per byte, high nibble first. */
  function HexBody(bs: seq<byte>): (s: string)
    ensures |s| == 2 * |bs|
    ensures forall i :: 0 <= i < |s| ==> IsLowerHexDigit(s[i])
  {
    if bs == [] then ""
    else [HexDigit(bs[0] as int / 16), HexDigit(bs[0] as int % 16)] + HexBody(bs[1..])
  }

  /** `Bytes.toHex()`: "0x" followed by the lower-case hexadecimal digits of every byte. */
  function ToHex(a: Address): (s: string)
    ensures |s| == 2 + 2 * |a| && s[..2] == "0x"
    ensures forall i :: 2 <= i < |s| ==> IsLowerHexDigit(s[i])
  {
    "0x" + HexBody(a)
  }

  lemma HexDigitInjective(d: nat, e: nat)
    requires d < 16 && e < 16
    ensures HexDigit(d) == HexDigit(e) ==> d == e
  {
  }

  lemma {:induction false} HexBodyInjective(a: seq<byte>, b: seq<byte>)
    ensures HexBody(a) == HexBody(b) ==> a == b
    decreases |a|
  {
    if HexBody(a) == HexBody(b) && a != [] {
      var s := HexBody(a);
      assert |b| == |a|;
      assert s[0] == HexDigit(a[0] as int / 16) && s[0] == HexDigit(b[0] as int / 16);
      assert s[1] == HexDigit(a[0] as int % 16) && s[1] == HexDigit(b[0] as int % 16);
      HexDigitInjective(a[0] as int / 16, b[0] as int / 16);
      HexDigitInjective(a[0] as int % 16, b[0] as int % 16);
      assert a[0] == b[0];
      assert HexBody(a[1..]) == s[2..] == HexBody(b[1..]);
      HexBodyInjective(a[1..], b[1..]);
      assert a == [a[0]] + a[1..] && b == [b[0]] + b[1..];
    }
  }

  /** Distinct addresses render to distinct hex strings, so `toHex` is a sound User key. */
  lemma ToHexInjective(a: Address, b: Address)
    ensures ToHex(a) == ToHex(b) <==> a == b
  {
    if ToHex(a) == ToHex(b) {
      assert HexBody(a) == ToHex(a)[2..] && HexBody(b) == ToHex(b)[2..];
      HexBodyInjective(a, b);
    }
  }

  /** The part of `s` before its first '-' (all of `s` when there is none). */
  function UpToDash(s: string): string {
    if s == [] || s[0] == '-' then [] else [s[0]] + UpToDash(s[1..])
  }

  /** The part of `s` after its first '-' (empty when there is none). */
  function PastDash(s: string): string {
    if s == [] then [] else if s[0] == '-' then s[1..] else PastDash(s[1..])
  }

  /** A '-' after a dash-free prefix is the first one, so the prefix and the rest can be
      read back from the joined string. */
  lemma {:induction false} SplitAtFirstDash(a: string, rest: string)
    requires NoDash(a)
    ensures UpToDash(a + "-" + rest) == a && PastDash(a + "-" + rest) == rest
    decreases |a|
  {
    if a == [] {
      assert a + "-" + rest == "-" + rest;
    } else {
      assert (a + "-" + rest)[1..] == a[1..] + "-" + rest;
      SplitAtFirstDash(a[1..], rest);
    }
  }

  /** A dash-free prefix joined to anything by '-' determines both parts. */
  lemma DashJoinInjective(a: string, x: string, b: string, y: string)
    requires NoDash(a) && NoDash(b)
    ensures a + "-" + x == b + "-" + y <==> a == b && x == y
  {
    SplitAtFirstDash(a, x);
    SplitAtFirstDash(b, y);
  }

  /** Concatenation regrouped so that a key's prefix can be cut off. */
  lemma RegroupKey(prefix: string, a: string, b: string, c: string)
    ensures prefix + a + "-" + b + "-" + c == prefix + (a + "-" + (b + "-" + c))
  {
  }

  lemma CutPrefix(prefix: string, rest: string)
    ensures (prefix + rest)[|prefix|..] == rest
  {
  }
}
