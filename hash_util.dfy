/** Hex encoding of a digest and the 8-character hash code cut from it
    (src/util/HashUtil.ts). The SHA-256 digest itself is an input. */
module HashUtil {
  import opened Text

  type Byte = x: int | 0 <= x < 256

  const HASH_CODE_LENGTH := 8

  predicate IsLowerHex(c: char) { '0' <= c <= '9' || 'a' <= c <= 'f' }

  function HexChar(d: int): (c: char)
    requires 0 <= d < 16
    ensures IsLowerHex(c)
  {
    if d < 10 then (48 + d) as char else (87 + d) as char
  }

  function HexVal(c: char): int {
    if '0' <= c <= '9' then c as int - 48
    else if 'a' <= c <= 'f' then c as int - 87
    else 0
  }

  /** `n.toString(16)` for a non-negative integer. */
  function NatToHex(n: nat): string
    decreases n
  {
    if n < 16 then [HexChar(n)] else NatToHex(n / 16) + [HexChar(n % 16)]
  }

  /** `byte.toString(16).padStart(2, '0')`. */
  function ByteToHex(b: Byte): string {
    PadStart(NatToHex(b), 2, '0')
  }

  /** Byte `i` of `bytes` is written at positions `2 * i` and `2 * i + 1`
      of `r`, high nibble first. */
  ghost predicate HexAt(r: string, bytes: seq<Byte>) {
    |r| == 2 * |bytes| &&
    forall i :: 0 <= i < |bytes| ==>
      r[2 * i] == HexChar(bytes[i] / 16) && r[2 * i + 1] == HexChar(bytes[i] % 16)
  }

  lemma HexAtCons(b: Byte, rest: seq<Byte>, tail: string)
    requires HexAt(tail, rest)
    ensures HexAt([HexChar(b / 16), HexChar(b % 16)] + tail, [b] + rest)
  {
    var r := [HexChar(b / 16), HexChar(b % 16)] + tail;
    var bytes := [b] + rest;
    forall i | 1 <= i < |bytes|
      ensures r[2 * i] == HexChar(bytes[i] / 16) && r[2 * i + 1] == HexChar(bytes[i] % 16)
    {
      var k := i - 1;
      assert bytes[i] == rest[k];
      assert r[2 * i] == tail[2 * k] && r[2 * i + 1] == tail[2 * k + 1];
    }
  }

  /** `Array.from(bytes, ByteToHex).join('')`: byte `i` is written at
      positions `2 * i` and `2 * i + 1`, high nibble first. */
  function ToHex(bytes: seq<Byte>): (r: string)
    ensures HexAt(r, bytes)
  {
    if bytes == [] then ""
    else
      ByteToHexDigits(bytes[0]);
      HexAtCons(bytes[0], bytes[1..], ToHex(bytes[1..]));
      assert [bytes[0]] + bytes[1..] == bytes;
      ByteToHex(bytes[0]) + ToHex(bytes[1..])
  }

  /** `getHashCode`: the first eight hex digits of the digest, which are
      the hex text of its first four bytes. */
  function HashCode(digest: seq<Byte>): (r: string)
    ensures |r| == Min(HASH_CODE_LENGTH, 2 * |digest|)
    ensures |digest| >= 4 ==> r == ToHex(digest[..4])
  {
    if |digest| >= 4 then
      ToHexAppend(digest[..4], digest[4..]);
      assert digest[..4] + digest[4..] == digest;
      Prefix(ToHex(digest), HASH_CODE_LENGTH)
    else
      Prefix(ToHex(digest), HASH_CODE_LENGTH)
  }

  /** Reads pairs of hex digits back into bytes. */
  function FromHex(s: string): seq<int> {
    if |s| < 2 then [] else [HexVal(s[0]) * 16 + HexVal(s[1])] + FromHex(s[2..])
  }

  /** Each byte gives its high then its low nibble, zero-padded. */
  lemma ByteToHexDigits(b: Byte)
    ensures ByteToHex(b) == [HexChar(b / 16), HexChar(b % 16)]
  {
    if b >= 16 {
      assert NatToHex(b / 16) == [HexChar(b / 16)];
    }
  }

  lemma ToHexIsLowerHex(bytes: seq<Byte>)
    ensures forall i :: 0 <= i < |ToHex(bytes)| ==> IsLowerHex(ToHex(bytes)[i])
  {
    var r := ToHex(bytes);
    forall i | 0 <= i < |r|
      ensures IsLowerHex(r[i])
    {
      var j := i / 2;
      assert 0 <= j < |bytes|;
      if i == 2 * j {
        assert r[2 * j] == HexChar(bytes[j] / 16);
      } else {
        assert i == 2 * j + 1;
        assert r[2 * j + 1] == HexChar(bytes[j] % 16);
      }
    }
  }

  lemma {:induction false} ToHexAppend(a: seq<Byte>, b: seq<Byte>)
    ensures ToHex(a + b) == ToHex(a) + ToHex(b)
  {
    if a != [] {
      assert (a + b)[1..] == a[1..] + b;
      ToHexAppend(a[1..], b);
    } else {
      assert a + b == b;
    }
  }

  lemma HexCharVal(d: int)
    requires 0 <= d < 16
    ensures HexVal(HexChar(d)) == d
  {
  }

  /** Decoding the hex text gives back the bytes. */
  lemma {:induction false} FromHexToHex(bytes: seq<Byte>)
    ensures FromHex(ToHex(bytes)) == bytes
  {
    if bytes != [] {
      var b := bytes[0];
      ByteToHexDigits(b);
      HexCharVal(b / 16);
      HexCharVal(b % 16);
      var s := ToHex(bytes);
      assert s[2..] == ToHex(bytes[1..]);
      FromHexToHex(bytes[1..]);
    }
  }

  /** A digest of at least four bytes gives an 8-digit lowercase hash code
      that starts the full hex text; SHA-256's 32 bytes are such a digest. */
  lemma HashCodeShape(digest: seq<Byte>)
    requires |digest| >= 4
    ensures |HashCode(digest)| == HASH_CODE_LENGTH
    ensures HashCode(digest) <= ToHex(digest)
    ensures forall i :: 0 <= i < HASH_CODE_LENGTH ==> IsLowerHex(HashCode(digest)[i])
  {
    ToHexIsLowerHex(digest);
  }
}
