/** Byte strings: little-endian integers, hexadecimal, and the two spellings of a job id. */
module Bytes {

  type Byte = x: int | 0 <= x < 256

  // ---- Little-endian integers ---------------------------------------------------------------

  function Pow256(width: nat): nat {
    if width == 0 then 1 else 256 * Pow256(width - 1)
  }

  function LittleEndian(n: nat, width: nat): (bytes: seq<Byte>)
    ensures |bytes| == width
  {
    if width == 0 then [] else [n % 256] + LittleEndian(n / 256, width - 1)
  }

  function FromLittleEndian(bytes: seq<Byte>): nat {
    if bytes == [] then 0 else bytes[0] + 256 * FromLittleEndian(bytes[1..])
  }

  lemma {:induction false} LittleEndianRoundTrip(n: nat, width: nat)
    requires n < Pow256(width)
    ensures FromLittleEndian(LittleEndian(n, width)) == n
  {
    if width > 0 {
      LittleEndianRoundTrip(n / 256, width - 1);
      var bytes := LittleEndian(n, width);
      assert bytes[1..] == LittleEndian(n / 256, width - 1);
    }
  }

  lemma {:induction false} FromLittleEndianRoundTrip(bytes: seq<Byte>)
    ensures FromLittleEndian(bytes) < Pow256(|bytes|)
    ensures LittleEndian(FromLittleEndian(bytes), |bytes|) == bytes
  {
    if bytes != [] {
      FromLittleEndianRoundTrip(bytes[1..]);
      assert bytes == [bytes[0]] + bytes[1..];
    }
  }

  /** Little-endian: what comes later weighs 256 times more a byte. */
  lemma {:induction false} LittleEndianConcat(a: seq<Byte>, b: seq<Byte>)
    ensures FromLittleEndian(a + b) == FromLittleEndian(a) + Pow256(|a|) * FromLittleEndian(b)
    ensures |a| == 1 ==> FromLittleEndian(a) == a[0]
  {
    if a == [] {
      assert a + b == b;
    } else {
      assert (a + b)[1..] == a[1..] + b;
      LittleEndianConcat(a[1..], b);
      WeighedMore(FromLittleEndian(a[1..]), Pow256(|a| - 1), FromLittleEndian(b));
    }
  }

  lemma WeighedMore(x: int, p: int, v: int)
    ensures 256 * (x + p * v) == 256 * x + (256 * p) * v
  {
  }

  // ---- Hexadecimal --------------------------------------------------------------------------

  function HexDigit(n: int): (c: char)
    requires 0 <= n < 16
    ensures IsLowerHex(c)
  {
    if n < 10 then '0' + n as char else 'a' + (n - 10) as char
  }

  predicate IsLowerHex(c: char) {
    '0' <= c <= '9' || 'a' <= c <= 'f'
  }

  predicate IsHex(c: char) {
    IsLowerHex(c) || 'A' <= c <= 'F'
  }

  function HexValue(c: char): (n: int)
    requires IsHex(c)
    ensures 0 <= n < 16
    ensures IsLowerHex(c) ==> HexDigit(n) == c
  {
    if '0' <= c <= '9' then c as int - '0' as int
    else if 'a' <= c <= 'f' then c as int - 'a' as int + 10
    else c as int - 'A' as int + 10
  }

  function HexOf(bytes: seq<Byte>): (hex: string)
    ensures |hex| == 2 * |bytes|
    ensures forall c :: c in hex ==> IsLowerHex(c)
  {
    if bytes == [] then ""
    else [HexDigit(bytes[0] / 16), HexDigit(bytes[0] % 16)] + HexOf(bytes[1..])
  }

  /** Decoding stops at the first pair that is not hexadecimal. */
  function ParseHex(hex: string): seq<Byte> {
    if |hex| < 2 || !IsHex(hex[0]) || !IsHex(hex[1]) then []
    else [16 * HexValue(hex[0]) + HexValue(hex[1])] + ParseHex(hex[2..])
  }

  /** Two digits a byte, the higher first, in the usual order. */
  lemma {:induction false} HexOfDigits(bytes: seq<Byte>, i: nat)
    requires i < |bytes|
    ensures HexOf(bytes)[2 * i] == "0123456789abcdef"[bytes[i] / 16]
    ensures HexOf(bytes)[2 * i + 1] == "0123456789abcdef"[bytes[i] % 16]
  {
    if i > 0 {
      HexOfDigits(bytes[1..], i - 1);
    }
    HexDigitNamed(bytes[i] / 16);
    HexDigitNamed(bytes[i] % 16);
  }

  lemma HexDigitNamed(n: int)
    requires 0 <= n < 16
    ensures HexDigit(n) == "0123456789abcdef"[n]
  {
  }

  lemma HexDigitRoundTrip(n: int)
    requires 0 <= n < 16
    ensures HexValue(HexDigit(n)) == n
  {
  }

  lemma {:induction false} ParseHexOf(bytes: seq<Byte>)
    ensures ParseHex(HexOf(bytes)) == bytes
  {
    if bytes != [] {
      HexDigitRoundTrip(bytes[0] / 16);
      HexDigitRoundTrip(bytes[0] % 16);
      assert HexOf(bytes)[2..] == HexOf(bytes[1..]);
      ParseHexOf(bytes[1..]);
    }
  }

  lemma {:induction false} HexOfParse(hex: string)
    requires |hex| % 2 == 0 && forall c :: c in hex ==> IsLowerHex(c)
    ensures HexOf(ParseHex(hex)) == hex
    ensures |ParseHex(hex)| == |hex| / 2
  {
    if hex != "" {
      assert hex[0] in hex && hex[1] in hex;
      HexOfParse(hex[2..]);
      var b := 16 * HexValue(hex[0]) + HexValue(hex[1]);
      assert b / 16 == HexValue(hex[0]) && b % 16 == HexValue(hex[1]);
      assert ParseHex(hex)[1..] == ParseHex(hex[2..]);
    }
  }

  // ---- UUIDs --------------------------------------------------------------------------------

  /** `s.slice(from, to)`: bounds beyond the end are clamped. */
  function Slice<T>(s: seq<T>, from: nat, to: nat): seq<T>
    requires from <= to
  {
    if |s| <= from then [] else if |s| < to then s[from..] else s[from..to]
  }

  function BytesToUuid(bytes: seq<Byte>): string {
    var hex := HexOf(bytes);
    Slice(hex, 0, 8) + "-" + Slice(hex, 8, 12) + "-" + Slice(hex, 12, 16) + "-" + Slice(hex, 16, 20)
    + "-" + (if |hex| <= 20 then "" else hex[20..])
  }

  function StripDashes(s: string): string {
    if s == "" then "" else (if s[0] == '-' then "" else [s[0]]) + StripDashes(s[1..])
  }

  function UuidToBytes(uuid: string): seq<Byte> {
    ParseHex(StripDashes(uuid))
  }

  /** The lower-case text form of section 4 of RFC 9562. */
  predicate CanonicalUuid(u: string) {
    && |u| == 36
    && u[8] == '-' && u[13] == '-' && u[18] == '-' && u[23] == '-'
    && forall i :: 0 <= i < 36 && i != 8 && i != 13 && i != 18 && i != 23 ==> IsLowerHex(u[i])
  }

  lemma {:induction false} StripAppend(a: string, b: string)
    ensures StripDashes(a + b) == StripDashes(a) + StripDashes(b)
  {
    if a == "" {
      assert a + b == b;
    } else {
      assert (a + b)[1..] == a[1..] + b;
      StripAppend(a[1..], b);
    }
  }

  lemma {:induction false} StripHex(s: string)
    requires forall c :: c in s ==> IsLowerHex(c)
    ensures StripDashes(s) == s
  {
    if s != "" {
      assert s[0] in s;
      StripHex(s[1..]);
    }
  }

  lemma StripDash()
    ensures StripDashes("-") == ""
  {
    assert "-"[1..] == "";
  }

  lemma StripGroup(before: string, group: string)
    requires forall c :: c in group ==> IsLowerHex(c)
    ensures StripDashes(before + "-" + group) == StripDashes(before) + group
  {
    var left := before + "-";
    StripAppend(left, group);
    StripHex(group);
    StripTrailingDash(before);
  }

  lemma StripTrailingDash(before: string)
    ensures StripDashes(before + "-") == StripDashes(before)
  {
    StripAppend(before, "-");
    StripDash();
    assert StripDashes(before) + "" == StripDashes(before);
  }

  /** Five hexadecimal groups joined by dashes lose exactly the dashes. */
  lemma StripGroups(a: string, b: string, c: string, d: string, e: string)
    requires forall x :: x in a || x in b || x in c || x in d || x in e ==> IsLowerHex(x)
    ensures StripDashes(a + "-" + b + "-" + c + "-" + d + "-" + e) == a + b + c + d + e
  {
    StripHex(a);
    StripGroup(a, b);
    StripGroup(a + "-" + b, c);
    StripGroup(a + "-" + b + "-" + c, d);
    StripGroup(a + "-" + b + "-" + c + "-" + d, e);
  }

  /** Every 16-byte job id survives being written as a UUID. */
  lemma BytesRoundTrip(bytes: seq<Byte>)
    requires |bytes| == 16
    ensures CanonicalUuid(BytesToUuid(bytes))
    ensures UuidToBytes(BytesToUuid(bytes)) == bytes
  {
    var hex := HexOf(bytes);
    var a, b, c, d, e := hex[0..8], hex[8..12], hex[12..16], hex[16..20], hex[20..];
    assert hex == a + b + c + d + e;
    StripGroups(a, b, c, d, e);
    ParseHexOf(bytes);
  }

  function Groups(a: string, b: string, c: string, d: string, e: string): string {
    a + "-" + b + "-" + c + "-" + d + "-" + e
  }

  lemma CutGroups(u: string) returns (a: string, b: string, c: string, d: string, e: string)
    requires CanonicalUuid(u)
    ensures |a| == 8 && |b| == 4 && |c| == 4 && |d| == 4 && |e| == 12
    ensures u == Groups(a, b, c, d, e)
    ensures forall x :: x in a || x in b || x in c || x in d || x in e ==> IsLowerHex(x)
  {
    a, b, c, d, e := u[0..8], u[9..13], u[14..18], u[19..23], u[24..];
  }

  lemma JoinGroups(bytes: seq<Byte>, a: string, b: string, c: string, d: string, e: string)
    requires |a| == 8 && |b| == 4 && |c| == 4 && |d| == 4 && |e| == 12
    requires HexOf(bytes) == a + b + c + d + e
    ensures BytesToUuid(bytes) == Groups(a, b, c, d, e)
  {
    var hex := HexOf(bytes);
    assert hex[0..8] == a && hex[8..12] == b && hex[12..16] == c && hex[16..20] == d && hex[20..] == e;
  }

  /** Every canonical UUID survives being sent as bytes. */
  lemma UuidRoundTrip(u: string)
    requires CanonicalUuid(u)
    ensures |UuidToBytes(u)| == 16
    ensures BytesToUuid(UuidToBytes(u)) == u
  {
    var a, b, c, d, e := CutGroups(u);
    StripGroups(a, b, c, d, e);
    var hex := a + b + c + d + e;
    assert StripDashes(u) == hex;
    forall x | x in hex ensures IsLowerHex(x) {}
    HexOfParse(hex);
    JoinGroups(ParseHex(hex), a, b, c, d, e);
  }
}
