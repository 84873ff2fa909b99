/**
 * Fixed-width integers of the Rust code and the OBIS object identifier
 * (IEC 62056-61): six value groups A to F, carried by the program as a
 * `[u8; 6]` array.
 */
module Obis {
  import opened Wrappers

  /** Rust `u8`. */
  type byte = x: int | 0 <= x < 0x100

  /** Rust `u16`. */
  type u16 = x: int | 0 <= x < 0x1_0000

  /** Rust `u32`. */
  type u32 = x: int | 0 <= x < 0x1_0000_0000

  /** Rust `u64`. */
  type u64 = x: int | 0 <= x < 0x1_0000_0000_0000_0000

  /** Rust `i8`. */
  type i8 = x: int | -0x80 <= x < 0x80

  /** Rust `i16`. */
  type i16 = x: int | -0x8000 <= x < 0x8000

  /** Rust `i32`. */
  type i32 = x: int | -0x8000_0000 <= x < 0x8000_0000

  /** Rust `i64`. */
  type i64 = x: int | -0x8000_0000_0000_0000 <= x < 0x8000_0000_0000_0000

  /** A `[u8; 6]` identifier; the fields are the OBIS value groups A..F in array order. */
  datatype ObisId = ObisId(a: byte, b: byte, c: byte, d: byte, e: byte, f: byte)

  /** The identifier as the six bytes of the array. */
  function IdBytes(id: ObisId): (s: seq<byte>)
    ensures |s| == 6
    ensures s[0] == id.a && s[1] == id.b && s[2] == id.c && s[3] == id.d && s[4] == id.e && s[5] == id.f
  {
    [id.a, id.b, id.c, id.d, id.e, id.f]
  }

  /**
   * `<[u8; 6]>::try_from(&[u8])`, written `slice.try_into()` in the program:
   * it succeeds exactly when the slice is six bytes long.
   */
  function TryIntoId(s: seq<byte>): (r: Option<ObisId>)
    ensures r.Some? <==> |s| == 6
  {
    if |s| == 6 then Some(ObisId(s[0], s[1], s[2], s[3], s[4], s[5])) else None
  }

  /** Converting an identifier to bytes and back gives the identifier. */
  lemma TryIntoBytes(id: ObisId)
    ensures TryIntoId(IdBytes(id)) == Some(id)
  {
  }

  /** A successful conversion keeps the bytes: the slice is the array's contents. */
  lemma BytesOfTryInto(s: seq<byte>)
    requires |s| == 6
    ensures TryIntoId(s).Some? && IdBytes(TryIntoId(s).value) == s
  {
  }
}
