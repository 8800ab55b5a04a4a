/**
  The record-identifier renderer `generateId(name, length, next)`: the first three
  characters of the collection name, upper-cased, then `length - d` zeros (none when
  that is not positive), where `d` is the number of decimal digits of a positive `next`
  and 0 when `next <= 0`, then the decimal numeral of `next`, never truncated.
 */
module IdFormat {
  import opened Wrappers

  // ---------------------------------------------------------------------------
  // Upper-casing (ASCII only) and the name prefix
  // ---------------------------------------------------------------------------

  /** ASCII upper-casing of one character; every other character is left as is. */
  function UpperChar(c: char): char {
    if 'a' <= c <= 'z' then (c as int - 32) as char else c
  }

  /** Upper-cases every character of `s`, keeping its length. */
  function Upper(s: string): (u: string)
    ensures |u| == |s|
    ensures forall i :: 0 <= i < |s| ==> u[i] == UpperChar(s[i])
  {
    if s == [] then [] else [UpperChar(s[0])] + Upper(s[1..])
  }

  function Min(a: int, b: int): int {
    if a <= b then a else b
  }

  /** The identifier prefix: the first (at most) three characters of the name, upper-cased. */
  function Prefix(name: string): (p: string)
    ensures |p| == Min(3, |name|)
    ensures forall i :: 0 <= i < |p| ==> p[i] == UpperChar(name[i])
  {
    Upper(name[..Min(3, |name|)])
  }

  // ---------------------------------------------------------------------------
  // Decimal digits and numerals
  // ---------------------------------------------------------------------------

  function Pow10(k: nat): (p: nat)
    ensures p >= 1
  {
    if k == 0 then 1 else 10 * Pow10(k - 1)
  }

  /**
    The value the digit-count loop leaves in `nextLen`: 0 when `n <= 0`, otherwise
    the number of decimal digits of `n`, i.e. the `d` with 10^(d-1) <= n < 10^d.
   */
  function DigitCount(n: int): (d: nat)
    ensures n <= 0 ==> d == 0
    ensures n > 0 ==> d >= 1
    decreases n
  {
    if n <= 0 then 0 else 1 + DigitCount(n / 10)
  }

  /** For positive `n`, DigitCount(n) is the number of decimal digits of `n`. */
  lemma {:induction false} DigitCountBounds(n: int)
    requires n > 0
    ensures Pow10(DigitCount(n) - 1) <= n < Pow10(DigitCount(n))
    decreases n
  {
    if n >= 10 {
      DigitCountBounds(n / 10);
    }
  }

  predicate IsDigit(c: char) {
    '0' <= c <= '9'
  }

  predicate AllDigits(s: string) {
    forall i :: 0 <= i < |s| ==> IsDigit(s[i])
  }

  function DigitChar(d: int): (c: char)
    requires 0 <= d < 10
    ensures IsDigit(c)
  {
    ('0' as int + d) as char
  }

  function DigitValue(c: char): (v: nat)
    requires IsDigit(c)
    ensures v < 10
  {
    c as int - '0' as int
  }

  /**
    The decimal numeral of a non-negative integer, without leading zeros
    (what JavaScript's string conversion of an integral number gives).
   */
  function NatNumeral(n: nat): (s: string)
    ensures |s| >= 1 && AllDigits(s)
    ensures n > 0 ==> |s| == DigitCount(n) && s[0] != '0'
    ensures n == 0 ==> s == "0"
  {
    if n < 10 then [DigitChar(n)] else NatNumeral(n / 10) + [DigitChar(n % 10)]
  }

  /**
    The numeral appended by `prefix + next`: the decimal digits of `next`, after a
    minus sign when `next` is negative.
   */
  function Numeral(n: int): (r: string)
    ensures |r| >= 1
    ensures n >= 0 ==> AllDigits(r) && DigitsValue(r) == n
    ensures n < 0 ==> r[0] == '-' && AllDigits(r[1..]) && DigitsValue(r[1..]) == -n
  {
    if n < 0 then
      var digits := NatNumeral(-n);
      NumeralValue(-n);
      assert ("-" + digits)[1..] == digits;
      "-" + digits
    else
      NumeralValue(n);
      NatNumeral(n)
  }

  function Zeros(k: nat): (z: string)
    ensures |z| == k && forall i :: 0 <= i < k ==> z[i] == '0'
  {
    seq(k, _ => '0')
  }

  /** How many times the padding loop runs: `length - nextLen` when positive, else 0. */
  function ZeroCount(length: int, next: int): nat {
    if length - DigitCount(next) > 0 then length - DigitCount(next) else 0
  }

  /** The identifier `generateId(name, length, next)` returns. */
  function RenderId(name: string, length: int, next: int): string {
    Prefix(name) + (Zeros(ZeroCount(length, next)) + Numeral(next))
  }

  // ---------------------------------------------------------------------------
  // The renderer as the source writes it: a digit-count loop and a padding loop
  // ---------------------------------------------------------------------------

  method GenerateId(name: string, length: int, next: int) returns (id: string)
    ensures id == RenderId(name, length, next)
  {
    var prefix := Prefix(name);
    var nextLen := 0;
    var tempNext := next;
    while tempNext > 0
      invariant nextLen + DigitCount(tempNext) == DigitCount(next)
      decreases tempNext
    {
      // Math.floor(tempNext / 10): Dafny's division floors for a positive divisor.
      tempNext := tempNext / 10;
      nextLen := nextLen + 1;
    }
    var i := 0;
    while i < length - nextLen
      invariant 0 <= i
      invariant i <= ZeroCount(length, next)
      invariant prefix == Prefix(name) + Zeros(i)
    {
      prefix := prefix + "0";
      i := i + 1;
    }
    ConcatAssoc(Prefix(name), Zeros(i), Numeral(next));
    id := prefix + Numeral(next);
  }

  // ---------------------------------------------------------------------------
  // Reading an identifier back
  // ---------------------------------------------------------------------------

  /** The value of a string of decimal digits, most significant first. */
  function DigitsValue(s: string): nat
    requires AllDigits(s)
  {
    if s == [] then 0 else 10 * DigitsValue(s[..|s| - 1]) + DigitValue(s[|s| - 1])
  }

  /** Parses a non-empty run of decimal digits; anything else is rejected. */
  function ParseDecimal(s: string): (r: Option<nat>)
    ensures r.Some? <==> |s| > 0 && AllDigits(s)
  {
    if |s| > 0 && AllDigits(s) then Some(DigitsValue(s)) else None
  }

  function StripLeadingZeros(s: string): (t: string)
    ensures |t| <= |s| && t == s[|s| - |t|..]
    ensures t == [] || t[0] != '0'
  {
    if |s| > 0 && s[0] == '0' then StripLeadingZeros(s[1..]) else s
  }

  /**
    The sequence value an identifier for collection `name` carries: the identifier
    must start with the name's prefix; the rest, without its leading zeros, is parsed
    as a decimal numeral.
   */
  function ParseId(name: string, id: string): Option<nat> {
    var p := Prefix(name);
    if p <= id then ParseDecimal(StripLeadingZeros(id[|p|..])) else None
  }

  // ---------------------------------------------------------------------------
  // Properties of the renderer
  // ---------------------------------------------------------------------------

  /** Parsing the numeral of a natural number gives the number back. */
  lemma {:induction false} NumeralValue(n: nat)
    ensures DigitsValue(NatNumeral(n)) == n
  {
    if n >= 10 {
      NumeralValue(n / 10);
      var s := NatNumeral(n / 10);
      var t := s + [DigitChar(n % 10)];
      assert t[..|t| - 1] == s;
    }
  }

  /** Leading zeros in front of a numeral that does not start with '0' are stripped exactly. */
  lemma {:induction false} StripZerosBefore(k: nat, s: string)
    requires s == [] || s[0] != '0'
    ensures StripLeadingZeros(Zeros(k) + s) == s
  {
    if k > 0 {
      assert (Zeros(k) + s)[1..] == Zeros(k - 1) + s;
      StripZerosBefore(k - 1, s);
    } else {
      assert Zeros(k) + s == s;
    }
  }

  lemma ConcatAssoc(a: string, b: string, c: string)
    ensures (a + b) + c == a + (b + c)
  {
  }

  /** Splitting a concatenation after its first part. */
  lemma SplitAfter(p: string, rest: string)
    ensures p <= p + rest
    ensures (p + rest)[|p|..] == rest
  {
    assert (p + rest)[..|p|] == p;
  }

  /** The number of zeros appended is exactly max(0, length - digits of next). */
  lemma PaddingCount(name: string, length: int, next: int)
    ensures var id, p, z := RenderId(name, length, next), |Prefix(name)|, ZeroCount(length, next);
      && |id| == p + z + |Numeral(next)|
      && id[..p] == Prefix(name)
      && (forall i :: p <= i < p + z ==> id[i] == '0')
      && id[p + z..] == Numeral(next)
    ensures var id := RenderId(name, length, next);
      && Prefix(name) <= id
      && id[|Prefix(name)|..] == Zeros(ZeroCount(length, next)) + Numeral(next)
  {
    var p, z, numeral := Prefix(name), Zeros(ZeroCount(length, next)), Numeral(next);
    SplitAfter(p, z + numeral);
    ConcatAssoc(p, z, numeral);
    SplitAfter(p + z, numeral);
    forall i | |p| <= i < |p| + |z| ensures RenderId(name, length, next)[i] == '0' {
      assert RenderId(name, length, next)[i] == (z + numeral)[i - |p|];
    }
  }

  lemma AllDigitsConcat(a: string, b: string)
    requires AllDigits(a) && AllDigits(b)
    ensures AllDigits(a + b)
  {
    forall i | 0 <= i < |a + b| ensures IsDigit((a + b)[i]) {
      if i >= |a| {
        assert (a + b)[i] == b[i - |a|];
      }
    }
  }

  /**
    A positive `next` with at most `length` digits fills exactly `length` characters
    after the prefix, all of them decimal digits.
   */
  lemma FixedWidth(name: string, length: int, next: int)
    requires 0 < next && DigitCount(next) <= length
    ensures |RenderId(name, length, next)| == |Prefix(name)| + length
    ensures AllDigits(RenderId(name, length, next)[|Prefix(name)|..])
  {
    PaddingCount(name, length, next);
    AllDigitsConcat(Zeros(ZeroCount(length, next)), NatNumeral(next));
  }

  /**
    No truncation: when `next` has at least `length` digits no zero is added, and the
    whole numeral of `next` always ends the identifier.
   */
  lemma NoTruncation(name: string, length: int, next: int)
    ensures var id := RenderId(name, length, next);
      && |id| >= |Numeral(next)|
      && id[|id| - |Numeral(next)|..] == Numeral(next)
      && (DigitCount(next) >= length ==> id == Prefix(name) + Numeral(next))
  {
    var p, z, numeral := Prefix(name), Zeros(ZeroCount(length, next)), Numeral(next);
    ConcatAssoc(p, z, numeral);
    SplitAfter(p + z, numeral);
    if DigitCount(next) >= length {
      assert z == [];
    }
  }

  /** Round trip: the identifier of a positive `next` parses back to `next`. */
  lemma RoundTrip(name: string, length: int, next: int)
    requires next > 0
    ensures ParseId(name, RenderId(name, length, next)) == Some(next)
  {
    PaddingCount(name, length, next);
    var id := RenderId(name, length, next);
    var numeral := NatNumeral(next);
    StripZerosBefore(ZeroCount(length, next), numeral);
    assert StripLeadingZeros(id[|Prefix(name)|..]) == numeral;
    NumeralValue(next);
  }

  /** For a fixed name and width, distinct positive values give distinct identifiers. */
  lemma RenderInjective(name: string, length: int, a: int, b: int)
    requires a > 0 && b > 0 && a != b
    ensures RenderId(name, length, a) != RenderId(name, length, b)
  {
    RoundTrip(name, length, a);
    RoundTrip(name, length, b);
  }

  /** The default eight-wide pattern for "orders" renders 1 as "ORD00000001". */
  lemma ExampleOrders()
    ensures RenderId("orders", 8, 1) == "ORD00000001"
  {
    assert Prefix("orders") == "ORD" by {
      assert "orders"[..3] == "ord";
    }
    assert DigitCount(1) == 1;
    assert Zeros(7) == "0000000";
  }

  /** A value wider than the padding is rendered whole: no truncation. */
  lemma ExampleWide()
    ensures RenderId("ab", 2, 123) == "AB123"
  {
    assert Prefix("ab") == "AB" by {
      assert "ab"[..2] == "ab";
    }
    assert DigitCount(123) == 3 by {
      assert DigitCount(12) == 2;
    }
    assert NatNumeral(123) == "123" by {
      assert NatNumeral(12) == "12";
    }
    assert Zeros(0) == [];
  }
}
