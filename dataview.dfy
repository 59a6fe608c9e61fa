/** A model of the few `DataView` reads the orientation scanner uses: unsigned
    16- and 32-bit integers at a byte offset, in an explicit byte order.  A read
    that does not fit inside the buffer throws a `RangeError`; here it yields
    `OutOfRange` instead of a value. */
module DataView {

  /** One octet of an `ArrayBuffer`. */
  type Byte = b: int | 0 <= b < 0x100

  /** The outcome of one read: the unsigned value, or the `RangeError` the
      read throws when it reaches past `byteLength`. */
  datatype Read = Ok(value: nat) | OutOfRange

  /** `view.getUint16(offset, little)` */
  function GetUint16(buf: seq<Byte>, offset: nat, little: bool): (r: Read)
    ensures r.Ok? <==> offset + 2 <= |buf|
    ensures r.Ok? ==> r.value < 0x1_0000
    ensures r.Ok? && !little ==> r.value / 0x100 == (buf[offset] as int) && r.value % 0x100 == (buf[offset + 1] as int)
    ensures r.Ok? && little ==> r.value % 0x100 == (buf[offset] as int) && r.value / 0x100 == (buf[offset + 1] as int)
  {
    if offset + 2 > |buf| then OutOfRange
    else if little then Ok((buf[offset] as int) + 0x100 * (buf[offset + 1] as int))
    else Ok(0x100 * (buf[offset] as int) + (buf[offset + 1] as int))
  }

  /** `view.getUint32(offset, little)`; `Uint32ReadBytes` and
      `Uint32ReadsStoredValue` state that the value is the one whose four
      bytes, in the given byte order, are the four bytes at `offset`. */
  function GetUint32(buf: seq<Byte>, offset: nat, little: bool): (r: Read)
    ensures r.Ok? <==> offset + 4 <= |buf|
    ensures r.Ok? ==> r.value < 0x1_0000_0000
  {
    if offset + 4 > |buf| then OutOfRange
    else if little then
      Ok((buf[offset] as int) + 0x100 * ((buf[offset + 1] as int) + 0x100 * ((buf[offset + 2] as int) + 0x100 * (buf[offset + 3] as int))))
    else
      Ok(((0x100 * (buf[offset] as int) + (buf[offset + 1] as int)) * 0x100 + (buf[offset + 2] as int)) * 0x100 + (buf[offset + 3] as int))
  }

  /** A successful 32-bit read yields the value stored in its four bytes. */
  lemma Uint32ReadBytes(buf: seq<Byte>, offset: nat, little: bool)
    requires offset + 4 <= |buf|
    ensures GetUint32(buf, offset, little).Ok?
    ensures Uint32Bytes(GetUint32(buf, offset, little).value, little) == buf[offset..offset + 4]
  {
    var b0, b1, b2, b3 := buf[offset], buf[offset + 1], buf[offset + 2], buf[offset + 3];
    if little {
      Uint32Digits(b3, b2, b1, b0);
    } else {
      Uint32Digits(b0, b1, b2, b3);
    }
  }

  /** The base-256 digits of a four-digit number, most significant first. */
  lemma Uint32Digits(b0: Byte, b1: Byte, b2: Byte, b3: Byte)
    ensures var v := ((0x100 * b0 + b1) * 0x100 + b2) * 0x100 + b3;
      v == b3 + 0x100 * (b2 + 0x100 * (b1 + 0x100 * b0)) &&
      v < 0x1_0000_0000 &&
      v / 0x100_0000 == b0 && (v / 0x1_0000) % 0x100 == b1 && (v / 0x100) % 0x100 == b2 && v % 0x100 == b3
  {
    var v := ((0x100 * b0 + b1) * 0x100 + b2) * 0x100 + b3;
    var h := 0x100 * b0 + b1;
    var m := h * 0x100 + b2;
    assert v % 0x100 == b3 && v / 0x100 == m;
    assert m % 0x100 == b2 && m / 0x100 == h;
    assert v / 0x1_0000 == m / 0x100;
    assert h % 0x100 == b1 && h / 0x100 == b0;
    assert v / 0x100_0000 == h / 0x100;
  }

  /** The two bytes that store `v` in the given byte order. */
  function Uint16Bytes(v: nat, little: bool): (s: seq<Byte>)
    requires v < 0x1_0000
    ensures |s| == 2
  {
    if little then [v % 0x100, v / 0x100] else [v / 0x100, v % 0x100]
  }

  /** The four bytes that store `v` in the given byte order. */
  function Uint32Bytes(v: nat, little: bool): (s: seq<Byte>)
    requires v < 0x1_0000_0000
    ensures |s| == 4
  {
    var b0, b1, b2, b3 := v / 0x100_0000, (v / 0x1_0000) % 0x100, (v / 0x100) % 0x100, v % 0x100;
    if little then [b3, b2, b1, b0] else [b0, b1, b2, b3]
  }

  /** Reading back the bytes that store a 16-bit value gives the value. */
  lemma Uint16RoundTrip(v: nat, little: bool)
    requires v < 0x1_0000
    ensures GetUint16(Uint16Bytes(v, little), 0, little) == Ok(v)
  {
  }

  /** Reading back the bytes that store a 32-bit value gives the value. */
  lemma Uint32RoundTrip(v: nat, little: bool)
    requires v < 0x1_0000_0000
    ensures GetUint32(Uint32Bytes(v, little), 0, little) == Ok(v)
  {
    var b0, b1, b2, b3 := v / 0x100_0000, (v / 0x1_0000) % 0x100, (v / 0x100) % 0x100, v % 0x100;
    assert v / 0x100 == v / 0x1_0000 * 0x100 + b2;
    assert v / 0x1_0000 == b0 * 0x100 + b1;
  }

  /** A 32-bit read at any offset reads the value stored in the four bytes
      there, so the round trip holds wherever the value sits in the buffer. */
  lemma Uint32ReadsStoredValue(buf: seq<Byte>, offset: nat, v: nat, little: bool)
    requires v < 0x1_0000_0000
    requires offset + 4 <= |buf| && buf[offset..offset + 4] == Uint32Bytes(v, little)
    ensures GetUint32(buf, offset, little) == Ok(v)
  {
    Uint32RoundTrip(v, little);
    Uint32ReadIsLocal(buf, offset, little);
  }

  /** A 32-bit read sees only its own four bytes. */
  lemma Uint32ReadIsLocal(buf: seq<Byte>, offset: nat, little: bool)
    requires offset + 4 <= |buf|
    ensures GetUint32(buf, offset, little) == GetUint32(buf[offset..offset + 4], 0, little)
  {
  }

  /** A 16-bit read sees only its own two bytes. */
  lemma Uint16ReadIsLocal(buf: seq<Byte>, offset: nat, little: bool)
    requires offset + 2 <= |buf|
    ensures GetUint16(buf, offset, little) == GetUint16(buf[offset..offset + 2], 0, little)
  {
  }

  /** The two byte orders read the same two bytes in opposite order. */
  lemma Uint16ByteOrder(a: Byte, b: Byte)
    ensures GetUint16([a, b], 0, true) == GetUint16([b, a], 0, false)
  {
  }
}
