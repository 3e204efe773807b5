/**
 * Key conversion and validation for DRM key material: Base16 (section 8 of
 * RFC 4648) decoding that tolerates separators and either letter case,
 * lower-case encoding, and the key-format check.
 */
module DrmUtils {
  import opened Common

  /** ECMAScript white space and line terminators: what `\s` matches in a
      regular expression (TAB, LF, VT, FF, CR, the space separators of
      Unicode category Zs, LINE and PARAGRAPH SEPARATOR, and the byte order mark). */
  predicate IsJsWhiteSpace(c: char)
  {
    var n := c as int;
    n == 0x09 || n == 0x0A || n == 0x0B || n == 0x0C || n == 0x0D || n == 0x20
    || n == 0xA0 || n == 0x1680 || (0x2000 <= n <= 0x200A) || n == 0x2028
    || n == 0x2029 || n == 0x202F || n == 0x205F || n == 0x3000 || n == 0xFEFF
  }

  /** The characters the pattern `[\s:-]` removes from key text. */
  predicate IsSeparator(c: char)
  {
    IsJsWhiteSpace(c) || c == ':' || c == '-'
  }

  /** Key text with every separator removed, the rest kept in order. */
  function Clean(s: string): (r: string)
    ensures |r| <= |s|
    ensures forall i :: 0 <= i < |r| ==> !IsSeparator(r[i])
  {
    if s == [] then []
    else (if IsSeparator(s[0]) then [] else [s[0]]) + Clean(s[1..])
  }

  predicate IsHexDigit(c: char)
  {
    '0' <= c <= '9' || 'a' <= c <= 'f' || 'A' <= c <= 'F'
  }

  predicate AllHex(s: string)
  {
    forall i :: 0 <= i < |s| ==> IsHexDigit(s[i])
  }

  function HexValue(c: char): (v: nat)
    requires IsHexDigit(c)
    ensures v < 16
  {
    if '0' <= c <= '9' then c as int - '0' as int
    else if 'a' <= c <= 'f' then c as int - 'a' as int + 10
    else c as int - 'A' as int + 10
  }

  /** `parseInt(pair, 16)` stored into a `Uint8Array`, for a two-character
      pair that holds no separator: two digits give their value; a digit
      followed by anything else gives that digit (parsing stops there, and
      the prefix `0x` also ends as 0); a `+` sign followed by a digit gives the
      digit; everything else is NaN, which the array stores as 0. */
  function ParsePair(c0: char, c1: char): (b: Byte)
    ensures IsHexDigit(c0) && IsHexDigit(c1) ==> b == 16 * HexValue(c0) + HexValue(c1)
  {
    if IsHexDigit(c0) && IsHexDigit(c1) then 16 * HexValue(c0) + HexValue(c1)
    else if IsHexDigit(c0) then HexValue(c0)
    else if c0 == '+' && IsHexDigit(c1) then HexValue(c1)
    else 0
  }

  /** The loop of `hexToUint8Array`: one byte per pair of characters. */
  function DecodePairs(c: string): (r: seq<Byte>)
    requires |c| % 2 == 0
    ensures 2 * |r| == |c|
    ensures forall i :: 0 <= i < |r| ==> r[i] == ParsePair(c[2 * i], c[2 * i + 1])
  {
    if c == [] then []
    else [ParsePair(c[0], c[1])] + DecodePairs(c[2..])
  }

  /** The error `hexToUint8Array` throws: the cleaned text has odd length. */
  datatype HexError = OddLength(length: nat)
  {
    function Message(): string
    {
      "Invalid hex string length: " + Decimal(length) + ". Must be even."
    }
  }

  /** `hexToUint8Array`: separators are removed before the length check and
      before decoding; an odd cleaned length is an error; otherwise the
      cleaned text is decoded pair by pair, high nibble first. */
  function HexToBytes(hex: string): (r: Result<seq<Byte>, HexError>)
    ensures r.Failure? <==> |Clean(hex)| % 2 == 1
    ensures r.Failure? ==> r.error == OddLength(|Clean(hex)|)
    ensures r.Success? ==> 2 * |r.value| == |Clean(hex)|
    ensures r.Success? ==> forall i :: 0 <= i < |r.value| ==>
              r.value[i] == ParsePair(Clean(hex)[2 * i], Clean(hex)[2 * i + 1])
    ensures r.Success? && AllHex(Clean(hex)) ==> forall i :: 0 <= i < |r.value| ==>
              r.value[i] == 16 * HexValue(Clean(hex)[2 * i]) + HexValue(Clean(hex)[2 * i + 1])
  {
    var c := Clean(hex);
    if |c| % 2 != 0 then Failure(OddLength(|c|)) else Success(DecodePairs(c))
  }

  predicate IsLowerHexDigit(c: char)
  {
    '0' <= c <= '9' || 'a' <= c <= 'f'
  }

  function HexChar(v: nat): (c: char)
    requires v < 16
    ensures IsLowerHexDigit(c) && HexValue(c) == v
  {
    if v < 10 then ('0' as int + v) as char else ('a' as int + v - 10) as char
  }

  /** `n.toString(16)` for a byte: lower-case digits, no leading zero. */
  function ByteToRadix16(b: Byte): string
  {
    if b < 16 then [HexChar(b)] else [HexChar(b / 16), HexChar(b % 16)]
  }

  /** k zero digits. */
  function Zeros(k: nat): (r: string)
    ensures |r| == k && forall i :: 0 <= i < k ==> r[i] == '0'
  {
    if k == 0 then [] else "0" + Zeros(k - 1)
  }

  /** `s.padStart(n, '0')`. */
  function PadStartZero(s: string, n: nat): (r: string)
    ensures |r| == if |s| < n then n else |s|
    ensures forall i :: 0 <= i < |r| ==> r[i] == if i < |r| - |s| then '0' else s[i - (|r| - |s|)]
  {
    if |s| < n then Zeros(n - |s|) + s else s
  }

  /** The digit of a byte's high nibble. */
  function HighDigit(b: Byte): char
  {
    HexChar(b / 16)
  }

  /** The digit of a byte's low nibble. */
  function LowDigit(b: Byte): char
  {
    HexChar(b % 16)
  }

  /** The two digits of a byte are lower-case hex and read back as the byte. */
  lemma DigitsOfByte(b: Byte)
    ensures IsLowerHexDigit(HighDigit(b)) && IsLowerHexDigit(LowDigit(b))
    ensures 16 * HexValue(HighDigit(b)) + HexValue(LowDigit(b)) == b
  {
  }

  /** One byte as `b.toString(16).padStart(2, '0')`: exactly two lower-case
      digits, high nibble first. */
  function ByteToHex(b: Byte): (r: string)
    ensures r == [HighDigit(b), LowDigit(b)]
  {
    PadStartZero(ByteToRadix16(b), 2)
  }

  /** `uint8ArrayToHex`: the two-digit groups of the bytes, concatenated.
      Each group is written with the digits `ByteToHex` is proved to produce,
      so the padding logic is unfolded only where it is needed;
      `BytesToHexJoinsGroups` states the correspondence. */
  function BytesToHex(bytes: seq<Byte>): (r: string)
    ensures |r| == 2 * |bytes|
  {
    if bytes == [] then [] else [HighDigit(bytes[0]), LowDigit(bytes[0])] + BytesToHex(bytes[1..])
  }

  /** The hex text is the padded group of the first byte followed by the hex
      text of the rest: the `map(...).join('')` of the source. */
  lemma BytesToHexJoinsGroups(bytes: seq<Byte>)
    requires bytes != []
    ensures BytesToHex(bytes) == ByteToHex(bytes[0]) + BytesToHex(bytes[1..])
  {
  }

  /** Characters 2i and 2i+1 of the hex text are the digits of byte i. */
  lemma {:induction false} BytesToHexDigits(bytes: seq<Byte>)
    ensures forall i :: 0 <= i < |bytes| ==>
              BytesToHex(bytes)[2 * i] == HighDigit(bytes[i]) && BytesToHex(bytes)[2 * i + 1] == LowDigit(bytes[i])
  {
    if bytes != [] {
      var rest := BytesToHex(bytes[1..]);
      var r := BytesToHex(bytes);
      BytesToHexDigits(bytes[1..]);
      assert r == [HighDigit(bytes[0]), LowDigit(bytes[0])] + rest;
      forall i | 0 <= i < |bytes|
        ensures r[2 * i] == HighDigit(bytes[i]) && r[2 * i + 1] == LowDigit(bytes[i])
      {
        if i > 0 {
          var j := i - 1;
          assert bytes[i] == bytes[1..][j];
          assert r[2 * i] == rest[2 * j] && r[2 * i + 1] == rest[2 * j + 1];
        }
      }
    }
  }

  /** The output of `uint8ArrayToHex` uses only the alphabet `0-9a-f`. */
  lemma BytesToHexAlphabet(bytes: seq<Byte>)
    ensures forall k :: 0 <= k < |BytesToHex(bytes)| ==> IsLowerHexDigit(BytesToHex(bytes)[k])
  {
    var r := BytesToHex(bytes);
    BytesToHexDigits(bytes);
    forall k | 0 <= k < |r|
      ensures IsLowerHexDigit(r[k])
    {
      var i := k / 2;
      PairIndex(k);
      DigitsOfByte(bytes[i]);
    }
  }

  /** Cleaning leaves text without separators unchanged. */
  lemma {:induction false} CleanWithoutSeparators(s: string)
    requires forall i :: 0 <= i < |s| ==> !IsSeparator(s[i])
    ensures Clean(s) == s
  {
    if s != [] {
      CleanWithoutSeparators(s[1..]);
    }
  }

  /** Hex text has no separators, so cleaning leaves it unchanged. */
  lemma CleanHex(s: string)
    requires AllHex(s)
    ensures Clean(s) == s
  {
    forall i | 0 <= i < |s|
      ensures !IsSeparator(s[i])
    {
      assert IsHexDigit(s[i]);
    }
    CleanWithoutSeparators(s);
  }

  /** Cleaning works piecewise: separators are dropped where they stand and
      everything else keeps its order. */
  lemma {:induction false} CleanConcat(a: string, b: string)
    ensures Clean(a + b) == Clean(a) + Clean(b)
  {
    if a == [] {
      assert a + b == b;
    } else {
      assert (a + b)[1..] == a[1..] + b;
      CleanConcat(a[1..], b);
    }
  }

  /** Cleaning is idempotent, so cleaning before the length check and again
      before decoding would change nothing. */
  lemma CleanIdempotent(s: string)
    ensures Clean(Clean(s)) == Clean(s)
  {
    CleanWithoutSeparators(Clean(s));
  }

  /** Every non-separator character survives cleaning as often as it occurs. */
  lemma {:induction false} CleanKeepsNonSeparators(s: string, c: char)
    requires !IsSeparator(c)
    ensures multiset(Clean(s))[c] == multiset(s)[c]
  {
    if s != [] {
      CleanKeepsNonSeparators(s[1..], c);
      assert s == [s[0]] + s[1..];
    }
  }

  /** Twice a length is even. */
  lemma DoubleIsEven(n: nat)
    ensures (2 * n) % 2 == 0
  {
  }

  /** Character k of a hex text belongs to pair k / 2. */
  lemma PairIndex(k: nat)
    ensures k == 2 * (k / 2) || k == 2 * (k / 2) + 1
  {
  }

  /** The two digits of a byte parse back to the byte. */
  lemma PairOfByte(b: Byte)
    ensures ParsePair(HighDigit(b), LowDigit(b)) == b
  {
    DigitsOfByte(b);
  }

  /** A hex digit re-encoded from its value is its lower-case form. */
  lemma HexCharOfValue(c: char)
    requires IsHexDigit(c)
    ensures HexChar(HexValue(c)) == AsciiLowerChar(c)
  {
  }

  /** A pair of hex digits parses to the byte whose digits are the pair in
      lower case. */
  lemma DigitsOfPair(hi: char, lo: char)
    requires IsHexDigit(hi) && IsHexDigit(lo)
    ensures HighDigit(ParsePair(hi, lo)) == AsciiLowerChar(hi)
    ensures LowDigit(ParsePair(hi, lo)) == AsciiLowerChar(lo)
  {
    var b := ParsePair(hi, lo);
    assert b / 16 == HexValue(hi) && b % 16 == HexValue(lo);
    HexCharOfValue(hi);
    HexCharOfValue(lo);
  }

  /** The decoding loop undoes the encoding. */
  lemma {:induction false} DecodeEncodedPairs(bytes: seq<Byte>)
    ensures DecodePairs(BytesToHex(bytes)) == bytes
  {
    if bytes != [] {
      var h := BytesToHex(bytes);
      var rest := BytesToHex(bytes[1..]);
      assert h == [HighDigit(bytes[0]), LowDigit(bytes[0])] + rest;
      assert h[2..] == rest;
      DecodeEncodedPairs(bytes[1..]);
      PairOfByte(bytes[0]);
      assert DecodePairs(h) == [ParsePair(h[0], h[1])] + DecodePairs(rest);
    }
  }

  /** Lower-casing works pair by pair. */
  lemma AsciiLowerPairs(c: string)
    requires |c| >= 2
    ensures AsciiLower(c) == [AsciiLowerChar(c[0]), AsciiLowerChar(c[1])] + AsciiLower(c[2..])
  {
    var r := [AsciiLowerChar(c[0]), AsciiLowerChar(c[1])] + AsciiLower(c[2..]);
    forall i | 0 <= i < |c|
      ensures r[i] == AsciiLower(c)[i]
    {
      if i >= 2 {
        assert r[i] == AsciiLower(c[2..])[i - 2];
      }
    }
  }

  /** The encoding undoes the decoding loop, up to letter case. */
  lemma {:induction false} EncodeDecodedPairs(c: string)
    requires AllHex(c) && |c| % 2 == 0
    ensures BytesToHex(DecodePairs(c)) == AsciiLower(c)
  {
    if c != [] {
      var b := DecodePairs(c);
      var tail := c[2..];
      assert b == [ParsePair(c[0], c[1])] + DecodePairs(tail);
      assert b[1..] == DecodePairs(tail);
      assert AllHex(tail) by {
        forall i | 0 <= i < |tail|
          ensures IsHexDigit(tail[i])
        {
          assert tail[i] == c[i + 2];
        }
      }
      EncodeDecodedPairs(tail);
      DigitsOfPair(c[0], c[1]);
      AsciiLowerPairs(c);
      assert BytesToHex(b) == [HighDigit(b[0]), LowDigit(b[0])] + BytesToHex(b[1..]);
    }
  }

  /** Encoding then decoding gives back every byte sequence exactly. */
  lemma BytesRoundTrip(bytes: seq<Byte>)
    ensures HexToBytes(BytesToHex(bytes)) == Success(bytes)
  {
    var h := BytesToHex(bytes);
    BytesToHexAlphabet(bytes);
    assert AllHex(h);
    CleanHex(h);
    DecodeEncodedPairs(bytes);
    DoubleIsEven(|bytes|);
  }

  /** Decoding then encoding normalises: for even-length hex text the result
      is the cleaned text in lower case. */
  lemma HexRoundTrip(hex: string)
    requires AllHex(Clean(hex)) && |Clean(hex)| % 2 == 0
    ensures HexToBytes(hex).Success?
    ensures BytesToHex(HexToBytes(hex).value) == AsciiLower(Clean(hex))
  {
    var c := Clean(hex);
    assert HexToBytes(hex) == Success(DecodePairs(c));
    EncodeDecodedPairs(c);
  }

  /** The key forms `validateDrmKey` accepts: hex text or raw bytes. */
  datatype DrmKey = HexKey(text: string) | RawKey(bytes: seq<Byte>)

  /** The default expected key length, in bytes. */
  const DefaultKeyLength: nat := 16

  /** `validateDrmKey`: hex text must clean to exactly two digits per byte and
      match `^[0-9a-fA-F]+$` (so it may not be empty); raw bytes need only have
      the expected length. */
  function ValidateDrmKey(key: DrmKey, expectedLength: int): bool
  {
    match key
    case HexKey(text) =>
      var c := Clean(text);
      |c| == expectedLength * 2 && |c| > 0 && AllHex(c)
    case RawKey(bytes) => |bytes| == expectedLength
  }

  /** A hex key is valid exactly when its cleaned text is hex and decodes
      without error to the expected, non-zero, number of bytes; in
      particular no hex key, not even `""`, is valid for length 0. */
  lemma ValidHexKeyDecodes(text: string, expectedLength: int)
    ensures ValidateDrmKey(HexKey(text), expectedLength) <==>
              AllHex(Clean(text)) && HexToBytes(text).Success?
              && |HexToBytes(text).value| == expectedLength && expectedLength > 0
  {
  }

  /** The two forms agree: raw bytes are valid exactly when their hex
      encoding is, for any positive expected length. */
  lemma ValidateFormsAgree(bytes: seq<Byte>, expectedLength: int)
    requires expectedLength > 0
    ensures ValidateDrmKey(RawKey(bytes), expectedLength) <==>
              ValidateDrmKey(HexKey(BytesToHex(bytes)), expectedLength)
  {
    var h := BytesToHex(bytes);
    BytesToHexAlphabet(bytes);
    assert AllHex(h);
    CleanHex(h);
  }
}
