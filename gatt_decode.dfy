/** Decoders for the two GATT characteristics the Bluetooth manager reads:
    Heart Rate Measurement (0x2A37, section 3.1 of the Bluetooth SIG Heart
    Rate Service specification) and Battery Level (0x2A19, section 3.1 of the
    Battery Service specification). A payload is the byte sequence obtained
    from the characteristic's base64 value. */
module GattDecode {

  type byte = b: int | 0 <= b < 256

  /** Outcome of `Buffer.readUInt16LE`: the value, or the range error it
      throws when fewer than two bytes remain at the offset. */
  datatype ReadResult = Read(value: nat) | OutOfRange

  /** `buf.readUInt16LE(offset)`: the little-endian unsigned 16-bit value at `offset`. */
  function ReadUInt16LE(buf: seq<byte>, offset: nat): (r: ReadResult)
    ensures r.Read? <==> offset + 2 <= |buf|
    ensures r.Read? ==> r.value < 0x1_0000
    ensures r.Read? ==> r.value % 256 == buf[offset] && r.value / 256 == buf[offset + 1]
  {
    if offset + 2 <= |buf| then Read(buf[offset] as int + 256 * buf[offset + 1] as int) else OutOfRange
  }

  /** Bit 0 of the flags byte (`flags & 0x01`): set when the heart-rate value is 16 bits wide. */
  predicate SixteenBitValue(flags: byte) {
    flags % 2 == 1
  }

  /** `parseHeartRateValue`: the heart rate in beats per minute, or 0 when the
      payload carries none. The range error of a 16-bit read on a two-byte
      payload is caught and also gives 0, so decoding is total. */
  function ParseHeartRateValue(payload: seq<byte>): (bpm: nat)
    ensures |payload| < 2 ==> bpm == 0
    ensures |payload| >= 2 && !SixteenBitValue(payload[0]) ==> bpm == payload[1]
    ensures |payload| >= 3 && SixteenBitValue(payload[0]) ==> bpm == payload[1] as int + 256 * payload[2] as int
    ensures |payload| == 2 && SixteenBitValue(payload[0]) ==> bpm == 0
    ensures bpm < 0x1_0000
  {
    if |payload| >= 2 then
      if SixteenBitValue(payload[0]) then
        match ReadUInt16LE(payload, 1)
        case Read(v) => v
        case OutOfRange => 0
      else
        payload[1]
    else
      0
  }

  /** `parseBatteryLevel`: the first byte unchanged (no clamping to 100), or 0
      for an empty payload. */
  function ParseBatteryLevel(payload: seq<byte>): (level: nat)
    ensures |payload| == 0 ==> level == 0
    ensures |payload| > 0 ==> level == payload[0]
    ensures level < 256
  {
    if |payload| > 0 then payload[0] else 0
  }

  // ---------------------------------------------------------------------
  // Encoders: how a peripheral lays out the two characteristics

  /** A Heart Rate Measurement as a peripheral sends it: the flags byte other
      than bit 0, the value, its width, and whatever fields follow it
      (energy expended, RR intervals), which the decoder ignores. */
  datatype HeartRateMeasurement = HeartRateMeasurement(
    otherFlags: byte, bpm: nat, sixteenBit: bool, trailer: seq<byte>)

  predicate WellFormed(m: HeartRateMeasurement) {
    && m.otherFlags % 2 == 0
    && (if m.sixteenBit then m.bpm < 0x1_0000 else m.bpm < 256)
  }

  function EncodeHeartRate(m: HeartRateMeasurement): (payload: seq<byte>)
    requires WellFormed(m)
    ensures |payload| == (if m.sixteenBit then 3 else 2) + |m.trailer|
  {
    var flags: byte := if m.sixteenBit then m.otherFlags + 1 else m.otherFlags;
    if m.sixteenBit then [flags, m.bpm % 256, m.bpm / 256] + m.trailer
    else [flags, m.bpm] + m.trailer
  }

  /** Decoding an encoded measurement gives back its heart rate, whatever the
      other flag bits and the trailing fields. */
  lemma HeartRateRoundTrip(m: HeartRateMeasurement)
    requires WellFormed(m)
    ensures ParseHeartRateValue(EncodeHeartRate(m)) == m.bpm
  {
    var p := EncodeHeartRate(m);
    if m.sixteenBit {
      assert SixteenBitValue(p[0]) && p[1] == m.bpm % 256 && p[2] == m.bpm / 256;
    } else {
      assert !SixteenBitValue(p[0]) && p[1] == m.bpm;
    }
  }

  /** An 8-bit reading is at most 255, whatever follows it. */
  lemma EightBitReadingBounded(payload: seq<byte>)
    requires |payload| >= 2 && !SixteenBitValue(payload[0])
    ensures ParseHeartRateValue(payload) < 256
  {
  }

  /** Decoding looks at no byte after the value: appending bytes to a payload
      that already holds its value leaves the reading unchanged. */
  lemma HeartRateIgnoresTrailer(payload: seq<byte>, trailer: seq<byte>)
    requires |payload| >= 2
    requires SixteenBitValue(payload[0]) ==> |payload| >= 3
    ensures ParseHeartRateValue(payload + trailer) == ParseHeartRateValue(payload)
  {
    var p := payload + trailer;
    assert p[0] == payload[0] && p[1] == payload[1];
    if SixteenBitValue(payload[0]) {
      assert p[2] == payload[2];
    }
  }

  /** The Battery Level characteristic holds one byte. */
  function EncodeBatteryLevel(level: byte): (payload: seq<byte>)
    ensures |payload| == 1
  {
    [level]
  }

  lemma BatteryLevelRoundTrip(level: byte)
    ensures ParseBatteryLevel(EncodeBatteryLevel(level)) == level
  {
  }

  /** A byte above 100 is passed through as it is, not clamped to 100. */
  lemma BatteryLevelNotClamped()
    ensures ParseBatteryLevel([200]) == 200
  {
  }
}
