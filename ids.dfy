/**
 * Identifiers built from random input (app.js): the user id `cryptoRandomId`, the six-digit
 * e-mail verification code and the `SOP-nnnnnn` document id. The random input is a parameter:
 * the eight bytes `crypto.getRandomValues` fills in, or `r = Math.floor(Math.random() * 900000)`.
 */
module Ids {
  import opened Text

  /** A value of a `Uint8Array` element. */
  newtype byte = x: int | 0 <= x < 256

  /** `b.toString(16).padStart(2, "0")` */
  function HexByte(b: byte): string {
    PadStart(NatToString(b as nat, 16), 2, '0')
  }

  /** `[...arr].map(b => b.toString(16).padStart(2, "0"))` */
  function HexParts(bytes: seq<byte>): seq<string> {
    seq(|bytes|, i requires 0 <= i < |bytes| => HexByte(bytes[i]))
  }

  /** `[...arr].map(b => b.toString(16).padStart(2, "0")).join("")` */
  function HexString(bytes: seq<byte>): string {
    Join(HexParts(bytes), "")
  }

  /** `cryptoRandomId()`: the eight bytes of a `Uint8Array(8)` written in hex. */
  function CryptoRandomId(bytes: seq<byte>): string
    requires |bytes| == 8
  {
    HexString(bytes)
  }

  lemma HexByteDigits(b: byte)
    ensures HexByte(b) == [DigitChar(b as nat / 16), DigitChar(b as nat % 16)]
  {
    TwoDigitNumeral(b as nat, 16);
  }

  /** Reads an id back as the bytes it encodes, two hex digits per byte. */
  function DecodeHex(s: string): seq<int> {
    seq(|s| / 2, k requires 0 <= k < |s| / 2 => ValueOf(s[2 * k .. 2 * k + 2], 16))
  }

  /** A user id is sixteen lower-case hex digits, bytes in order, two digits per byte, and
      reading it back gives the bytes. */
  lemma CryptoRandomIdShape(bytes: seq<byte>)
    requires |bytes| == 8
    ensures |CryptoRandomId(bytes)| == 16
    ensures forall k :: 0 <= k < 8 ==> CryptoRandomId(bytes)[2 * k .. 2 * k + 2] == HexByte(bytes[k])
    ensures forall k :: 0 <= k < 16 ==> IsDigitOf(CryptoRandomId(bytes)[k], 16)
    ensures |DecodeHex(CryptoRandomId(bytes))| == 8
    ensures forall k :: 0 <= k < 8 ==> DecodeHex(CryptoRandomId(bytes))[k] == bytes[k] as int
  {
    assert CryptoRandomId(bytes) == HexString(bytes);
    HexStringPieces(bytes);
    HexStringDigits(bytes);
    HexStringRoundTrip(bytes);
  }

  lemma HexStringPieces(bytes: seq<byte>)
    ensures |HexString(bytes)| == 2 * |bytes|
    ensures forall k :: 0 <= k < |bytes| ==> HexString(bytes)[2 * k .. 2 * k + 2] == HexByte(bytes[k])
  {
    var parts := HexParts(bytes);
    forall k | 0 <= k < |bytes| ensures |parts[k]| == 2 {
      HexByteDigits(bytes[k]);
    }
    JoinPairs(parts);
    var id := HexString(bytes);
    forall k | 0 <= k < |bytes| ensures id[2 * k .. 2 * k + 2] == HexByte(bytes[k]) {
      assert id[2 * k .. 2 * k + 2] == parts[k];
    }
  }

  lemma HexStringDigits(bytes: seq<byte>)
    ensures forall k :: 0 <= k < |HexString(bytes)| ==> IsDigitOf(HexString(bytes)[k], 16)
  {
    HexStringPieces(bytes);
    forall k | 0 <= k < |HexString(bytes)| ensures IsDigitOf(HexString(bytes)[k], 16) {
      HexDigitAt(bytes, k / 2, k % 2);
      assert k == 2 * (k / 2) + k % 2;
    }
  }

  /** Digit `j` of the piece for byte `p`. */
  lemma HexDigitAt(bytes: seq<byte>, p: nat, j: nat)
    requires p < |bytes| && j < 2
    ensures |HexString(bytes)| == 2 * |bytes|
    ensures IsDigitOf(HexString(bytes)[2 * p + j], 16)
  {
    HexStringPieces(bytes);
    HexByteIsHex(bytes[p]);
    PieceDigit(HexString(bytes), HexByte(bytes[p]), p, j);
  }

  lemma PieceDigit(id: string, h: string, p: nat, j: nat)
    requires 2 * p + 2 <= |id| && id[2 * p .. 2 * p + 2] == h && j < 2
    requires |h| == 2 && IsDigitOf(h[0], 16) && IsDigitOf(h[1], 16)
    ensures IsDigitOf(id[2 * p + j], 16)
  {
    assert id[2 * p .. 2 * p + 2][j] == id[2 * p + j];
  }

  lemma HexByteIsHex(b: byte)
    ensures |HexByte(b)| == 2 && IsDigitOf(HexByte(b)[0], 16) && IsDigitOf(HexByte(b)[1], 16)
  {
    var n := b as nat;
    HexByteDigits(b);
    SmallQuotient(n, 16);
    DigitRoundTrip(n / 16);
    DigitRoundTrip(n % 16);
  }

  lemma HexStringRoundTrip(bytes: seq<byte>)
    ensures |DecodeHex(HexString(bytes))| == |bytes|
    ensures forall k :: 0 <= k < |bytes| ==> DecodeHex(HexString(bytes))[k] == bytes[k] as int
  {
    HexStringPieces(bytes);
    var d := DecodeHex(HexString(bytes));
    forall k | 0 <= k < |bytes| ensures d[k] == bytes[k] as int {
      HexPieceValue(bytes, k);
    }
  }

  lemma HexPieceValue(bytes: seq<byte>, k: nat)
    requires k < |bytes|
    ensures |HexString(bytes)| == 2 * |bytes|
    ensures ValueOf(HexString(bytes)[2 * k .. 2 * k + 2], 16) == bytes[k] as int
  {
    HexStringPieces(bytes);
    HexByteValue(bytes[k]);
  }

  lemma HexByteValue(b: byte)
    ensures ValueOf(HexByte(b), 16) == b as int
  {
    var n := b as nat;
    HexByteDigits(b);
    TwoDigitValue(n / 16, n % 16, 16);
  }

  /** The verification code `String(Math.floor(100000 + Math.random() * 900000))`. */
  function VerificationCode(r: nat): string
    requires r < 900000
  {
    NatToString(100000 + r, 10)
  }

  /** The code is a six-digit decimal string whose value is in 100000..999999 (and is `100000 + r`). */
  lemma VerificationCodeShape(r: nat)
    requires r < 900000
    ensures |VerificationCode(r)| == 6
    ensures forall k :: 0 <= k < 6 ==> IsDigitOf(VerificationCode(r)[k], 10)
    ensures ValueOf(VerificationCode(r), 10) == 100000 + r
    ensures 100000 <= ValueOf(VerificationCode(r), 10) <= 999999
  {
    assert Pow(10, 5) == 100000 && Pow(10, 6) == 1000000;
    NatToStringLength(100000 + r, 10, 6);
    NatToStringRoundTrip(100000 + r, 10);
  }

  /** Different random draws give different codes. */
  lemma VerificationCodeInjective(r1: nat, r2: nat)
    requires r1 < 900000 && r2 < 900000
    requires VerificationCode(r1) == VerificationCode(r2)
    ensures r1 == r2
  {
    NatToStringRoundTrip(100000 + r1, 10);
    NatToStringRoundTrip(100000 + r2, 10);
  }

  /** The document id `"SOP-" + String(Math.floor(Math.random() * 900000) + 100000)`. */
  function DocumentId(r: nat): (id: string)
    requires r < 900000
    ensures |id| == 10 && id[..4] == "SOP-"
    ensures forall k :: 4 <= k < 10 ==> IsDigitOf(id[k], 10)
  {
    VerificationCodeShape(r);
    "SOP-" + NatToString(100000 + r, 10)
  }
}
