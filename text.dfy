/**
 * Text forms of numbers used by the service: the lowercase hexadecimal
 * `{:x}` form of fixed-size hashes and addresses, the parser behind
 * `H160::from_str`, and the decimal `to_string` of unsigned integers.
 */
module Text {
  import opened Wrappers
  import opened Bytes

  /** A lowercase hexadecimal digit: '0'..'9' or 'a'..'f'. */
  predicate IsLowerHexDigit(c: char)
  {
    '0' <= c <= '9' || 'a' <= c <= 'f'
  }

  /** Every character is a lowercase hexadecimal digit. */
  predicate IsLowerHex(s: string)
  {
    forall i :: 0 <= i < |s| ==> IsLowerHexDigit(s[i])
  }

  /** Every character is a hexadecimal digit of either case. */
  predicate AllHexDigits(s: string)
  {
    forall i :: 0 <= i < |s| ==> HexValue(s[i]).Some?
  }

  /** The lowercase digit for a value below 16: '0'..'9', then 'a'..'f'. */
  function HexDigit(v: nat): (c: char)
    requires v < 16
    ensures HexValue(c) == Some(v) && IsLowerHexDigit(c)
  {
    if v < 10 then ('0' as int + v) as char else ('a' as int + v - 10) as char
  }

  /** Two lowercase hex digits per byte, high nibble first (`{:02x}` per byte). */
  function LowerHex(bs: seq<byte>): (s: string)
    ensures |s| == 2 * |bs| && IsLowerHex(s)
  {
    if bs == [] then "" else [HexDigit(bs[0] / 16), HexDigit(bs[0] % 16)] + LowerHex(bs[1..])
  }

  /** The value of one hex digit; both letter cases are accepted. */
  function HexValue(c: char): (r: Option<nat>)
    ensures r.Some? ==> r.value < 16
  {
    if '0' <= c <= '9' then Some(c as nat - '0' as nat)
    else if 'a' <= c <= 'f' then Some(c as nat - 'a' as nat + 10)
    else if 'A' <= c <= 'F' then Some(c as nat - 'A' as nat + 10)
    else None
  }

  /** Decodes pairs of hex digits into bytes; fails on an odd length or a non-digit. */
  function ParseHex(s: string): (r: Option<seq<byte>>)
    ensures r.Some? ==> 2 * |r.value| == |s|
  {
    if |s| == 0 then Some([])
    else if |s| == 1 then None
    else
      var hi :- HexValue(s[0]);
      var lo :- HexValue(s[1]);
      var rest :- ParseHex(s[2..]);
      Some([hi * 16 + lo] + rest)
  }

  /** `ParseHex` succeeds exactly on an even number of hex digits. */
  lemma {:induction false} ParseHexDefined(s: string)
    ensures ParseHex(s).Some? <==> |s| % 2 == 0 && AllHexDigits(s)
  {
    if |s| >= 2 {
      ParseHexDefined(s[2..]);
      AllHexDigitsSplit(s);
    }
  }

  lemma AllHexDigitsSplit(s: string)
    requires |s| >= 2
    ensures AllHexDigits(s) <==> HexValue(s[0]).Some? && HexValue(s[1]).Some? && AllHexDigits(s[2..])
  {
    if AllHexDigits(s) {
      forall j | 0 <= j < |s[2..]|
        ensures HexValue(s[2..][j]).Some?
      {
        assert s[2..][j] == s[j + 2];
      }
    }
    if HexValue(s[0]).Some? && HexValue(s[1]).Some? && AllHexDigits(s[2..]) {
      forall i | 2 <= i < |s|
        ensures HexValue(s[i]).Some?
      {
        assert s[i] == s[2..][i - 2];
      }
    }
  }

  lemma {:induction false} ParseLowerHex(bs: seq<byte>)
    ensures ParseHex(LowerHex(bs)) == Some(bs)
  {
    if bs != [] {
      var s := LowerHex(bs);
      assert s[2..] == LowerHex(bs[1..]);
      assert HexValue(s[0]) == Some(bs[0] / 16) && HexValue(s[1]) == Some(bs[0] % 16);
      ParseLowerHex(bs[1..]);
      assert bs == [bs[0] / 16 * 16 + bs[0] % 16] + bs[1..];
    }
  }

  /** The input with one leading "0x" removed, if it has one. */
  function StripHexPrefix(s: string): string
  {
    if |s| >= 2 && s[..2] == "0x" then s[2..] else s
  }

  /** The separators the hex digit reader skips: space, tab, carriage return and line feed. */
  predicate IsHexSpace(c: char)
  {
    c == ' ' || c == '\t' || c == '\r' || c == '\n'
  }

  /** The text with every separator the hex digit reader skips removed. */
  function HexDigitsOf(s: string): string
  {
    if s == [] then []
    else if IsHexSpace(s[0]) then HexDigitsOf(s[1..])
    else [s[0]] + HexDigitsOf(s[1..])
  }

  lemma {:induction false} HexDigitsOfAppend(x: string, y: string)
    ensures HexDigitsOf(x + y) == HexDigitsOf(x) + HexDigitsOf(y)
  {
    if x == [] {
      assert x + y == y;
    } else {
      assert (x + y)[0] == x[0] && (x + y)[1..] == x[1..] + y;
      HexDigitsOfAppend(x[1..], y);
    }
  }

  /** Lowercase hex text has no separators, so the reader sees all of it. */
  lemma {:induction false} HexDigitsOfLowerHex(s: string)
    requires IsLowerHex(s)
    ensures HexDigitsOf(s) == s
  {
    if s != [] {
      assert IsLowerHexDigit(s[0]);
      assert IsLowerHex(s[1..]) by {
        forall i | 0 <= i < |s[1..]|
          ensures IsLowerHexDigit(s[1..][i])
        {
          assert s[1..][i] == s[i + 1];
        }
      }
      HexDigitsOfLowerHex(s[1..]);
    }
  }

  /** Text made of separators only is skipped entirely. */
  lemma {:induction false} HexDigitsOfSpaces(s: string)
    requires forall i :: 0 <= i < |s| ==> IsHexSpace(s[i])
    ensures HexDigitsOf(s) == []
  {
    if s != [] {
      assert forall i :: 0 <= i < |s[1..]| ==> IsHexSpace(s[1..][i]) by {
        forall i | 0 <= i < |s[1..]|
          ensures IsHexSpace(s[1..][i])
        {
          assert s[1..][i] == s[i + 1];
        }
      }
      HexDigitsOfSpaces(s[1..]);
    }
  }

  /**
   * `FromStr` of an `n`-byte fixed hash (`H160` for n = 20, `H256` for n = 32):
   * an optional "0x" prefix, then exactly 2n hex digits of either case.
   * Separators between, before or after the digits are skipped, as
   * rustc-hex's digit iterator does.
   */
  function ParseFixedHash(s: string, n: nat): (r: Option<seq<byte>>)
    ensures r.Some? ==> |r.value| == n
    ensures var digits := HexDigitsOf(StripHexPrefix(s));
      r.Some? <==> |digits| == 2 * n && AllHexDigits(digits)
  {
    var digits := HexDigitsOf(StripHexPrefix(s));
    ParseHexDefined(digits);
    var bytes :- ParseHex(digits);
    if |bytes| == n then Some(bytes) else None
  }

  /** `format!("0x{:x}", h)` of a fixed hash: "0x" and two lowercase digits per byte. */
  function FormatFixedHash(bs: seq<byte>): (s: string)
    ensures |s| == 2 + 2 * |bs| && s[..2] == "0x" && IsLowerHex(s[2..])
  {
    "0x" + LowerHex(bs)
  }

  /** Formatting a fixed hash and parsing the text back gives the same bytes. */
  lemma FormatThenParse(bs: seq<byte>)
    ensures ParseFixedHash(FormatFixedHash(bs), |bs|) == Some(bs)
  {
    var s := FormatFixedHash(bs);
    assert s[..2] == "0x" && s[2..] == LowerHex(bs);
    HexDigitsOfLowerHex(LowerHex(bs));
    ParseLowerHex(bs);
  }

  /** Trailing separators are accepted: the formatted hash followed by them parses to the same bytes. */
  lemma TrailingSpacesParse(bs: seq<byte>, spaces: string)
    requires forall i :: 0 <= i < |spaces| ==> IsHexSpace(spaces[i])
    ensures ParseFixedHash(FormatFixedHash(bs) + spaces, |bs|) == Some(bs)
  {
    var s := FormatFixedHash(bs) + spaces;
    assert s[..2] == "0x" && s[2..] == LowerHex(bs) + spaces;
    HexDigitsOfAppend(LowerHex(bs), spaces);
    HexDigitsOfSpaces(spaces);
    HexDigitsOfLowerHex(LowerHex(bs));
    assert HexDigitsOf(s[2..]) == LowerHex(bs);
    ParseLowerHex(bs);
  }

  function DecimalDigit(v: nat): (c: char)
    requires v < 10
    ensures DigitValue(c) == Some(v)
  {
    ('0' as int + v) as char
  }

  /** `to_string` of an unsigned integer: its decimal digits, no sign and no leading zeros. */
  function DecimalString(n: nat): (s: string)
    ensures |s| >= 1
  {
    if n < 10 then [DecimalDigit(n)] else DecimalString(n / 10) + [DecimalDigit(n % 10)]
  }

  function DigitValue(c: char): (r: Option<nat>)
    ensures r.Some? ==> r.value < 10
  {
    if '0' <= c <= '9' then Some(c as nat - '0' as nat) else None
  }

  /** Reads a non-empty string of decimal digits. */
  function ParseDecimal(s: string): Option<nat>
  {
    if |s| == 0 then None
    else if |s| == 1 then DigitValue(s[0])
    else
      var high :- ParseDecimal(s[..|s| - 1]);
      var low :- DigitValue(s[|s| - 1]);
      Some(high * 10 + low)
  }

  lemma {:induction false} ParseDecimalString(n: nat)
    ensures ParseDecimal(DecimalString(n)) == Some(n)
  {
    if n >= 10 {
      var s := DecimalString(n);
      assert s[..|s| - 1] == DecimalString(n / 10);
      ParseDecimalString(n / 10);
    }
  }

  /** Distinct numbers have distinct decimal strings. */
  lemma DecimalStringInjective(m: nat, n: nat)
    ensures DecimalString(m) == DecimalString(n) <==> m == n
  {
    if DecimalString(m) == DecimalString(n) {
      ParseDecimalString(m);
      ParseDecimalString(n);
    }
  }
}
