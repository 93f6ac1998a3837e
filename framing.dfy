/**
 * The gRPC Length-Prefixed-Message envelope as the gateway writes and reads it:
 * `pack('CN', 0, strlen($payload)) . $payload` on the way out, and
 * `getContent() ? substr(getContent(), 5) : ''` on the way in.
 * PHP strings are byte strings; here they are sequences of octets.
 */
module Framing {

  /** One octet of a PHP byte string. */
  type Byte = x: int | 0 <= x < 256

  /** Size of the envelope header: one flag byte and a four-byte length. */
  const HeaderSize: nat := 5

  /** `pack('N', n)` keeps only the low 32 bits of `n`. */
  const LengthModulus: nat := 0x1_0000_0000

  /** Reads four bytes as an unsigned big-endian number. */
  function BigEndianValue(bs: seq<Byte>): nat
    requires |bs| == 4
  {
    var b0: int, b1: int, b2: int, b3: int := bs[0], bs[1], bs[2], bs[3];
    ((b0 * 256 + b1) * 256 + b2) * 256 + b3
  }

  /** `pack('N', n)`: the low 32 bits of `n`, most significant byte first. */
  function BigEndian32(n: nat): (bs: seq<Byte>)
    ensures |bs| == 4
    ensures BigEndianValue(bs) == n % LengthModulus
  {
    var v := n % LengthModulus;
    var q1 := v / 256;
    var q2 := q1 / 256;
    var q3 := q2 / 256;
    assert q1 < 0x100_0000 && q2 < 0x1_0000 && q3 < 256;
    [q3, q2 % 256, q1 % 256, v % 256]
  }

  /** The envelope: flag byte 0 (uncompressed), the 32-bit length, then the payload. */
  function Frame(payload: seq<Byte>): (framed: seq<Byte>)
    ensures |framed| == HeaderSize + |payload|
    ensures framed[0] == 0
    ensures BigEndianValue(framed[1..HeaderSize]) == |payload| % LengthModulus
    ensures framed[HeaderSize..] == payload
  {
    [0] + BigEndian32(|payload|) + payload
  }

  /** PHP truthiness of a string: only "" and "0" are false, so any string of two or more bytes is true. */
  predicate Truthy(s: seq<Byte>)
    ensures |s| >= 2 ==> Truthy(s)
    ensures s == ['0' as int] ==> !Truthy(s)
    ensures |s| == 1 && s[0] != '0' as int ==> Truthy(s)
    ensures Truthy(s) ==> |s| >= 1
  {
    s != [] && s != ['0' as int]
  }

  /** PHP 8 `substr($s, $start)` for a non-negative start: the bytes from `start` on, "" once the start is past the end. */
  function Substr(s: seq<Byte>, start: nat): (r: seq<Byte>)
    ensures |r| == if start <= |s| then |s| - start else 0
    ensures forall i :: 0 <= i < |r| ==> r[i] == s[start + i]
  {
    if start <= |s| then s[start..] else []
  }

  /** The message handed to the handler: the request body with its 5-byte prefix removed (OswServer.php line 178). */
  function RequestMessage(content: seq<Byte>): (message: seq<Byte>)
    ensures |content| <= HeaderSize ==> message == []
    ensures |content| > HeaderSize ==> message == content[HeaderSize..]
  {
    if Truthy(content) then Substr(content, HeaderSize) else []
  }

  /** Stripping the prefix of a framed payload gives the payload back. */
  lemma StripFrame(payload: seq<Byte>)
    ensures RequestMessage(Frame(payload)) == payload
  {
  }

  /** The response of a failed call: an empty payload framed is exactly five zero bytes. */
  lemma EmptyFrame()
    ensures Frame([]) == [0, 0, 0, 0, 0]
  {
    assert BigEndian32(0) == [0, 0, 0, 0];
  }

  /** The length field is the payload length whenever it fits in 32 bits. */
  lemma FrameLength(payload: seq<Byte>)
    requires |payload| < LengthModulus
    ensures BigEndianValue(Frame(payload)[1..HeaderSize]) == |payload|
  {
  }
}
