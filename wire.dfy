/**
 * The CAN-like wire format shared by the dashboard and the test harness.
 *
 * A message on the wire is 12 bytes: a 4-byte identifier, copied with
 * `memcpy` in host order (fixed here as little-endian), followed by an
 * 8-byte payload whose numeric fields are big-endian.
 */
module Wire {
  import opened FixedWidth

  datatype Option<T> = None | Some(value: T)

  /** A queued frame: the identifier and the raw payload bytes. */
  datatype Frame = Frame(id: uint32, payload: seq<byte>)

  const MessageSize: nat := 12
  const PayloadSize: nat := 8

  // ---------------------------------------------------------------------
  // Identifier prefix (little-endian u32)
  // ---------------------------------------------------------------------

  /** The four bytes `memcpy(&id, ..., 4)` puts on the wire. */
  function IdBytes(id: uint32): (b: seq<byte>)
    ensures |b| == 4
  {
    [id % 0x100, (id / 0x100) % 0x100, (id / 0x1_0000) % 0x100, id / 0x100_0000]
  }

  /** The identifier a receiver reads back from the first four bytes. */
  function IdOf(b: seq<byte>): (id: uint32)
    requires |b| >= 4
  {
    b[0] as int + 0x100 * (b[1] as int + 0x100 * (b[2] as int + 0x100 * b[3] as int))
  }

  lemma IdOfIdBytes(id: uint32)
    ensures IdOf(IdBytes(id)) == id
  {
    var b := IdBytes(id);
    var r1 := id / 0x100;
    var r2 := r1 / 0x100;
    assert id == b[0] as int + 0x100 * r1;
    assert r1 == b[1] + 0x100 * r2;
    assert r2 == b[2] as int + 0x100 * b[3] as int;
  }

  lemma IdBytesIdOf(b: seq<byte>)
    requires |b| == 4
    ensures IdBytes(IdOf(b)) == b
  {
    var r2 := b[2] as int + 0x100 * b[3] as int;
    var r1 := b[1] as int + 0x100 * r2;
    var id := IdOf(b);
    assert id == b[0] as int + 0x100 * r1;
    DivModUnique(id, r1, b[0]);
    DivModUnique(r1, r2, b[1]);
    DivModUnique(r2, b[3], b[2]);
  }

  /** Euclidean division by 256 is determined by quotient and remainder. */
  lemma DivModUnique(n: int, q: int, r: int)
    requires 0 <= r < 0x100 && n == q * 0x100 + r
    ensures n / 0x100 == q && n % 0x100 == r
  {
  }

  // ---------------------------------------------------------------------
  // Big-endian payload fields
  // ---------------------------------------------------------------------

  /** `(buf[6] << 8) | buf[7]`: the unsigned 16-bit field in bytes 6..7. */
  function U16At6(p: seq<byte>): (v: uint16)
    requires |p| >= PayloadSize
  {
    p[6] as int * 0x100 + p[7] as int
  }

  /** `(buf[4] << 24) | ... | buf[7]`: the unsigned 32-bit field in bytes 4..7. */
  function U32At4(p: seq<byte>): (v: uint32)
    requires |p| >= PayloadSize
  {
    ((p[4] as int * 0x100 + p[5] as int) * 0x100 + p[6] as int) * 0x100 + p[7] as int
  }

  /** `buf[7] & 0x01`. */
  function Bit0At7(p: seq<byte>): (v: int)
    requires |p| >= PayloadSize
    ensures v == 0 || v == 1
    ensures v == 1 <==> p[7] % 2 == 1
  {
    p[7] % 2
  }

  /** Bytes 6 and 7 of a payload that carries `(v >> 8) & 0xFF` and `v & 0xFF`. */
  function PayloadU16(v: int): (p: seq<byte>)
    ensures |p| == PayloadSize
    ensures forall i :: 0 <= i < 6 ==> p[i] == 0
    ensures U16At6(p) == v % 0x1_0000
  {
    var hi := (v / 0x100) % 0x100;
    var lo := v % 0x100;
    LowSixteen(v);
    [0, 0, 0, 0, 0, 0, hi, lo]
  }

  /** The two low bytes of `v` recombine to `v` modulo 2^16 (also for negative `v`). */
  lemma LowSixteen(v: int)
    ensures ((v / 0x100) % 0x100) * 0x100 + v % 0x100 == v % 0x1_0000
  {
    var q := v / 0x100;
    var r := v % 0x100;
    var q2 := q / 0x100;
    var r2 := q % 0x100;
    assert v == q * 0x100 + r;
    assert q == q2 * 0x100 + r2;
    assert v == q2 * 0x1_0000 + (r2 * 0x100 + r);
    assert 0 <= r2 * 0x100 + r < 0x1_0000;
  }

  /** Bytes 4..7 of a payload that carries a 32-bit value big-endian. */
  function PayloadU32(v: uint32): (p: seq<byte>)
    ensures |p| == PayloadSize
    ensures forall i :: 0 <= i < 4 ==> p[i] == 0
    ensures U32At4(p) == v
  {
    var b3 := (v / 0x100_0000) % 0x100;
    var b2 := (v / 0x1_0000) % 0x100;
    var b1 := (v / 0x100) % 0x100;
    var b0 := v % 0x100;
    var r1 := v / 0x100;
    var r2 := r1 / 0x100;
    assert v == r1 * 0x100 + b0;
    assert r1 == r2 * 0x100 + b1;
    assert r2 == b3 * 0x100 + b2;
    [0, 0, 0, 0, b3, b2, b1, b0]
  }

  /** A payload that is zero except for byte 7. */
  function PayloadByte7(b: byte): (p: seq<byte>)
    ensures |p| == PayloadSize
    ensures forall i :: 0 <= i < 7 ==> p[i] == 0
    ensures p[7] == b && U16At6(p) == b && U32At4(p) == b
  {
    [0, 0, 0, 0, 0, 0, 0, b]
  }

  // ---------------------------------------------------------------------
  // Whole messages
  // ---------------------------------------------------------------------

  /** `frame.append(&id, 4); frame.append(payload)`. */
  function Message(id: uint32, payload: seq<byte>): (m: seq<byte>)
    requires |payload| == PayloadSize
    ensures |m| == MessageSize
    ensures m[..4] == IdBytes(id) && m[4..] == payload
  {
    IdBytes(id) + payload
  }

  /**
   * The receive step: a message under 12 bytes is dropped; otherwise the
   * identifier is bytes 0..3 and the payload is exactly bytes 4..11, so the
   * split is the inverse of `Message` on the first 12 bytes.
   */
  function Split(msg: seq<byte>): (r: Option<Frame>)
    ensures r.None? <==> |msg| < MessageSize
    ensures r.Some? ==> |r.value.payload| == PayloadSize
                        && Message(r.value.id, r.value.payload) == msg[..MessageSize]
  {
    if |msg| < MessageSize then None
    else
      var f := Frame(IdOf(msg[..4]), msg[4..MessageSize]);
      IdBytesIdOf(msg[..4]);
      assert Message(f.id, f.payload) == msg[..4] + msg[4..MessageSize];
      Some(f)
  }

  lemma {:induction false} SplitMessage(id: uint32, payload: seq<byte>, trailer: seq<byte>)
    requires |payload| == PayloadSize
    ensures Split(Message(id, payload) + trailer) == Some(Frame(id, payload))
  {
    var m := Message(id, payload) + trailer;
    assert m[..4] == IdBytes(id);
    assert m[4..MessageSize] == payload;
    IdOfIdBytes(id);
  }
}
