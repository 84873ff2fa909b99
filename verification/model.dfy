/** src/serial/model.rs: the octet-string wrapper and the unit decoding of the meter module. */
module SerialModel {
  import opened Wrappers
  import opened Obis

  /** `struct OctSlice(OctetStr)`: a byte string as the decoder hands it out. */
  datatype OctSlice = OctSlice(octets: seq<byte>)

  /** The physical units the program recognises (`enum Unit`). */
  datatype Unit = Wh

  /** `Unit::try_from(u8)`: the byte 0x30 is watt-hours, every other byte is rejected with `()`. */
  function TryFromUnit(value: byte): (r: Result<Unit, ()>)
    ensures r.Ok? <==> value == 0x30
    ensures r.Ok? ==> r.value == Wh
  {
    match value
    case 0x30 => Ok(Wh)
    case _ => Err(())
  }

  /** The conversion is total over the 256 byte values and exactly one of them succeeds. */
  lemma ExactlyOneUnitByte()
    ensures (set b: int | 0 <= b < 0x100 && TryFromUnit(b).Ok?) == {0x30}
  {
  }

  /**
   * The accepted code is hexadecimal 0x30, decimal 48; the unit table of the
   * COSEM register class (IEC 62056-6-2) numbers watt-hours 30 in decimal,
   * which this conversion rejects.
   */
  lemma UnitCodeIsHexadecimal()
    ensures TryFromUnit(48) == Ok(Wh)
    ensures TryFromUnit(30) == Err(())
  {
  }
}
