/**
 * The global function `parseInt(string, radix)` of ECMA-262 (section 19.2.5),
 * specialised to the radix 16 that the wallet session uses to decode chain ids.
 *
 * The algorithm trims leading white space, takes an optional sign, strips an
 * optional "0x"/"0X" prefix, keeps the longest prefix of hexadecimal digits and
 * reads it as a base-16 integer.  An empty digit prefix yields NaN, written
 * here as `None`.
 */
module JsParseInt {
  import opened Wrappers

  /** WhiteSpace and LineTerminator code points of ECMA-262 (StrWhiteSpaceChar). */
  predicate IsStrWhiteSpace(c: char)
  {
    var k := c as int;
    // WhiteSpace: TAB, VT, FF, ZWNBSP
    k == 0x09 || k == 0x0B || k == 0x0C || k == 0xFEFF ||
    // LineTerminator: LF, CR, LS, PS
    k == 0x0A || k == 0x0D || k == 0x2028 || k == 0x2029 ||
    // the Unicode Space_Separator (Zs) category
    k == 0x20 || k == 0xA0 || k == 0x1680 || (0x2000 <= k <= 0x200A) ||
    k == 0x202F || k == 0x205F || k == 0x3000
  }

  /** TrimString(s, start): drops the leading white space of `s`. */
  function TrimStart(s: string): (r: string)
    ensures |r| <= |s| && r == s[|s| - |r|..]
    ensures forall i :: 0 <= i < |s| - |r| ==> IsStrWhiteSpace(s[i])
    ensures r == [] || !IsStrWhiteSpace(r[0])
  {
    if s != [] && IsStrWhiteSpace(s[0]) then TrimStart(s[1..]) else s
  }

  /** A digit of radix 16: 0-9, a-f or A-F. */
  predicate IsHexDigit(c: char)
  {
    ('0' <= c <= '9') || ('a' <= c <= 'f') || ('A' <= c <= 'F')
  }

  /** The value of one hexadecimal digit, upper or lower case. */
  function DigitValue(c: char): (v: nat)
    requires IsHexDigit(c)
    ensures v < 16
  {
    if '0' <= c <= '9' then c as int - '0' as int
    else if 'a' <= c <= 'f' then c as int - 'a' as int + 10
    else c as int - 'A' as int + 10
  }

  predicate AllHexDigits(s: string)
  {
    forall i :: 0 <= i < |s| ==> IsHexDigit(s[i])
  }

  /**
   * Step 11-12 of the algorithm: the substring of `s` up to the first code unit
   * that is not a radix-16 digit.
   */
  function LongestHexPrefix(s: string): (z: string)
    ensures |z| <= |s| && z == s[..|z|]
    ensures AllHexDigits(z)
    ensures |z| == |s| || !IsHexDigit(s[|z|])
  {
    if s == [] || !IsHexDigit(s[0]) then [] else [s[0]] + LongestHexPrefix(s[1..])
  }

  /** The integer that a string of hexadecimal digits denotes, most significant digit first. */
  function HexValue(z: string): nat
    requires AllHexDigits(z)
  {
    if z == [] then 0 else HexValue(z[..|z| - 1]) * 16 + DigitValue(z[|z| - 1])
  }

  /** `s` starts with the "0x" or "0X" prefix. */
  predicate HasHexPrefix(s: string)
  {
    |s| >= 2 && s[0] == '0' && (s[1] == 'x' || s[1] == 'X')
  }

  /** `parseInt(s, 16)`; `None` stands for NaN. */
  function ParseIntHex(s: string): Option<int>
  {
    var t := TrimStart(s);
    var sign := if t != [] && t[0] == '-' then -1 else 1;
    var u := if t != [] && (t[0] == '+' || t[0] == '-') then t[1..] else t;
    var v := if HasHexPrefix(u) then u[2..] else u;
    var z := LongestHexPrefix(v);
    if z == [] then None else Some(sign * HexValue(z))
  }

  /**
   * A well-formed hexadecimal chain id as a wallet announces it: "0x" (or "0X")
   * followed by at least one hexadecimal digit and nothing else.
   */
  predicate IsChainIdHex(s: string)
  {
    HasHexPrefix(s) && |s| > 2 && AllHexDigits(s[2..])
  }

  /** A string made only of hexadecimal digits is its own longest digit prefix. */
  lemma AllDigitsPrefix(s: string)
    requires AllHexDigits(s)
    ensures LongestHexPrefix(s) == s
  {
  }

  /** On a well-formed chain id, `parseInt(s, 16)` is the value of the digits after the prefix. */
  lemma ParseChainIdHex(s: string)
    requires IsChainIdHex(s)
    ensures ParseIntHex(s) == Some(HexValue(s[2..]))
  {
    assert !IsStrWhiteSpace(s[0]);
    assert TrimStart(s) == s;
    AllDigitsPrefix(s[2..]);
  }

  /** The lower-case hexadecimal digit of a value below 16. */
  function HexDigit(d: nat): (c: char)
    requires d < 16
    ensures IsHexDigit(c) && DigitValue(c) == d
  {
    if d < 10 then ('0' as int + d) as char else ('a' as int + d - 10) as char
  }

  /** The shortest lower-case hexadecimal numeral of `n`, as EIP-695 wallets write chain ids. */
  function ToHex(n: nat): (s: string)
    ensures |s| > 0 && AllHexDigits(s)
  {
    if n < 16 then [HexDigit(n)] else ToHex(n / 16) + [HexDigit(n % 16)]
  }

  /** Reading back a numeral gives the number it was written from. */
  lemma {:induction false} HexValueOfToHex(n: nat)
    ensures HexValue(ToHex(n)) == n
  {
    var s := ToHex(n);
    if n >= 16 {
      HexValueOfToHex(n / 16);
      assert s[..|s| - 1] == ToHex(n / 16);
    }
  }

  /** Round trip: `parseInt("0x" + n.toString(16), 16) == n` for every chain id `n`. */
  lemma ParseToHex(n: nat)
    ensures IsChainIdHex("0x" + ToHex(n))
    ensures ParseIntHex("0x" + ToHex(n)) == Some(n)
  {
    var s := "0x" + ToHex(n);
    assert s[2..] == ToHex(n);
    ParseChainIdHex(s);
    HexValueOfToHex(n);
  }

  /** The Sepolia chain id as a wallet announces it. */
  lemma ParseSepolia()
    ensures IsChainIdHex("0xaa36a7")
    ensures ParseIntHex("0xaa36a7") == Some(11155111)
  {
    var s := "0xaa36a7";
    assert s[2..] == "aa36a7";
    SepoliaDigits();
    ParseChainIdHex(s);
  }

  lemma SepoliaDigits()
    ensures HexValue("aa36a7") == 11155111
  {
    assert "aa36a7"[..5] == "aa36a";
    assert "aa36a"[..4] == "aa36";
    assert "aa36"[..3] == "aa3";
    assert "aa3"[..2] == "aa";
    assert "aa"[..1] == "a";
    assert "a"[..0] == "";
  }
}
