/** Block heights as the node writes them: `strconv.ParseInt(s, 16, 64)` for reading
    and `fmt.Sprintf("0x%x", n)` for writing (parser/parser.go:113,122). */
module Hex {
  import opened Results

  const MaxInt64: int := 0x7FFF_FFFF_FFFF_FFFF
  const MinInt64: int := -0x8000_0000_0000_0000

  /** A digit that `ParseInt` accepts in base 16, in either case. */
  predicate IsHexDigit(c: char)
  {
    '0' <= c <= '9' || 'a' <= c <= 'f' || 'A' <= c <= 'F'
  }

  predicate AllHexDigits(s: string)
  {
    forall i :: 0 <= i < |s| ==> IsHexDigit(s[i])
  }

  function DigitValue(c: char): (d: nat)
    requires IsHexDigit(c)
    ensures d < 16
  {
    if '0' <= c <= '9' then c as int - '0' as int
    else if 'a' <= c <= 'f' then c as int - 'a' as int + 10
    else c as int - 'A' as int + 10
  }

  /** The value of a string of hex digits, most significant first. */
  function DigitsValue(s: string): nat
    requires AllHexDigits(s)
  {
    if s == [] then 0 else DigitsValue(s[..|s| - 1]) * 16 + DigitValue(s[|s| - 1])
  }

  /** `strconv.ParseInt(s, 16, 64)`: an optional sign, then at least one hex digit,
      and the value must fit in a signed 64-bit integer. `None` stands for every
      error it reports (syntax or range). */
  function ParseInt16(s: string): (r: Option<int>)
    ensures r.Some? ==> MinInt64 <= r.value <= MaxInt64
    ensures r.Some? ==> exists i :: 0 <= i < |s| && IsHexDigit(s[i])
  {
    if |s| == 0 then None
    else
      var neg := s[0] == '-';
      var digits := if s[0] == '+' || s[0] == '-' then s[1..] else s;
      if |digits| == 0 || !AllHexDigits(digits) then None
      else
        var u: int := DigitsValue(digits);
        assert IsHexDigit(s[|s| - 1]);
        if !neg && u > MaxInt64 then None
        else if neg && u > MaxInt64 + 1 then None
        else Some(if neg then -u else u)
  }

  /** The digits of `s` after one optional leading sign. */
  function Unsigned(s: string): string
  {
    if |s| > 0 && (s[0] == '+' || s[0] == '-') then s[1..] else s
  }

  /** Exactly which strings `ParseInt16` accepts, and what they read as: after one
      optional sign there must be at least one hex digit and nothing else, and the
      value must be at most 2^63-1, or 2^63 after a minus sign. */
  lemma ParseInt16Exact(s: string)
    ensures var d := Unsigned(s);
            var neg := |s| > 0 && s[0] == '-';
            ParseInt16(s).Some? <==>
              && |d| > 0 && AllHexDigits(d)
              && DigitsValue(d) <= (if neg then MaxInt64 + 1 else MaxInt64)
    ensures var d := Unsigned(s);
            var neg := |s| > 0 && s[0] == '-';
            ParseInt16(s).Some? ==>
              && AllHexDigits(d)
              && ParseInt16(s).value == (if neg then 0 - DigitsValue(d) as int else DigitsValue(d) as int)
  {
  }

  /** The lower-case digit for a value below 16, as `%x` writes it. */
  function HexDigit(d: nat): (c: char)
    requires d < 16
    ensures IsHexDigit(c) && DigitValue(c) == d
    ensures !('A' <= c <= 'F')
  {
    "0123456789abcdef"[d]
  }

  /** `%x` of a natural number: lower-case hex digits with no leading zero. */
  function FormatHex(n: nat): (s: string)
    ensures |s| > 0
  {
    if n < 16 then [HexDigit(n)] else FormatHex(n / 16) + [HexDigit(n % 16)]
  }

  /** `%x` of any integer: Go writes a minus sign before the digits of a negative one. */
  function FormatInt16(n: int): (s: string)
    ensures |s| > 0
    ensures s[0] == '-' <==> n < 0
  {
    if n < 0 then
      DigitsValueFormat(-n);
      "-" + FormatHex(-n)
    else
      DigitsValueFormat(n);
      FormatHex(n)
  }

  /** The request encoding of a block height. */
  function EncodeBlockNumber(n: int): (s: string)
    ensures |s| >= 3 && s[..2] == "0x"
    ensures s[2] == '-' <==> n < 0
  {
    "0x" + FormatInt16(n)
  }

  /** The encoding is "0x" followed by `%x` of the height. */
  lemma EncodeBlockNumberParts(n: int)
    ensures var s := EncodeBlockNumber(n); |s| >= 2 && s[..2] == "0x" && s[2..] == FormatInt16(n)
  {
    var s := EncodeBlockNumber(n);
    assert s[2..] == FormatInt16(n);
  }

  /** `%x` writes lower-case hex digits only, with no leading zero, and they read back
      as the number. */
  lemma {:induction false} DigitsValueFormat(n: nat)
    ensures var s := FormatHex(n);
            && AllHexDigits(s)
            && (forall i :: 0 <= i < |s| ==> !('A' <= s[i] <= 'F'))
            && (s[0] == '0' ==> n == 0)
            && DigitsValue(s) == n
  {
    var s := FormatHex(n);
    if n >= 16 {
      var p := FormatHex(n / 16);
      DigitsValueFormat(n / 16);
      assert s == p + [HexDigit(n % 16)];
      assert s[..|s| - 1] == p;
      assert s[0] == p[0];
    }
  }

  /** An unsigned digit string reads as its value when that fits in 63 bits. */
  lemma ParseDigits(s: string)
    requires |s| > 0 && AllHexDigits(s) && DigitsValue(s) <= MaxInt64
    ensures ParseInt16(s) == Some(DigitsValue(s))
  {
    assert IsHexDigit(s[0]);
  }

  /** A minus sign and a digit string read as minus its value when that fits. */
  lemma ParseNegatedDigits(s: string)
    requires |s| > 0 && AllHexDigits(s) && DigitsValue(s) <= MaxInt64 + 1
    ensures var v: int := DigitsValue(s); ParseInt16("-" + s) == Some(-v)
  {
    assert ("-" + s)[1..] == s;
  }

  /** Reading back what `%x` wrote gives the number again, for every 64-bit integer. */
  lemma FormatRoundTrip(n: int)
    requires MinInt64 <= n <= MaxInt64
    ensures ParseInt16(FormatInt16(n)) == Some(n)
  {
    if n < 0 {
      var m: nat := -n;
      var digits := FormatHex(m);
      DigitsValueFormat(m);
      assert DigitsValue(digits) == m <= MaxInt64 + 1;
      ParseNegatedDigits(digits);
      assert FormatInt16(n) == "-" + digits;
    } else {
      var digits := FormatHex(n);
      DigitsValueFormat(n);
      ParseDigits(digits);
    }
  }

  /** The height reported in the parser's test, "0x64", reads as 100. */
  lemma ParseExample()
    ensures ParseInt16("64") == Some(100)
    ensures ParseInt16("+64") == Some(100) && ParseInt16("-64") == Some(-100)
    ensures ParseInt16("") == None && ParseInt16("-") == None && ParseInt16("6g") == None
  {
    assert "64"[..1] == "6";
    assert DigitsValue("64") == 100;
    ParseDigits("64");
    assert "-64"[1..] == "64" && "+64"[1..] == "64";
    assert !IsHexDigit("6g"[1]);
  }
}
