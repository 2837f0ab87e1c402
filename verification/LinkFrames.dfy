/** src/linkCapability.ts:261-272: data frames, a big-endian channel number and a payload. */
module LinkFrames {
  import opened Collections
  import opened Sha256Constants
  import opened Sha256

  datatype Frame = Frame(channel: nat, payload: Bytes)

  /** `setUint32` keeps the channel modulo 2^32. */
  function DataFrame(frame: Frame): Bytes {
    BigEndian(frame.channel, 4) + frame.payload
  }

  function ParseDataFrame(raw: Bytes): Option<Frame> {
    if |raw| < 4 then None else Some(Frame(FromBigEndian(raw[..4]), raw[4..]))
  }

  lemma SetsModulo(v: nat)
    ensures BigEndian(v, 4) == BigEndian(v % TWO_32, 4)
  {
    hide BigEndian, Low;
    LastFour(v, 0);
    LastFour(v % TWO_32, 0);
    LowByte(v / TWO_32, v % TWO_32);
    assert v == TWO_32 * (v / TWO_32) + v % TWO_32;
  }

  lemma {:induction false} WritesBack(bytes: Bytes)
    ensures BigEndian(FromBigEndian(bytes), |bytes|) == bytes
  {
    if bytes != [] {
      WritesBack(bytes[..|bytes| - 1]);
      assert bytes == bytes[..|bytes| - 1] + [bytes[|bytes| - 1]];
    }
  }

  /** A frame is parsed back to its payload and its channel modulo 2^32, and everything of at
      least four bytes is the frame of what it is parsed to. */
  lemma FramesReadBack(frame: Frame, raw: Bytes)
    ensures ParseDataFrame(DataFrame(frame)) == Some(Frame(frame.channel % TWO_32, frame.payload))
    ensures ParseDataFrame(raw).None? <==> |raw| < 4
    ensures ParseDataFrame(raw).Some? ==> DataFrame(ParseDataFrame(raw).value) == raw
  {
    var written := DataFrame(frame);
    assert written[..4] == BigEndian(frame.channel, 4) && written[4..] == frame.payload;
    SetsModulo(frame.channel);
    assert Power256(4) == TWO_32;
    BigEndianReads(frame.channel % TWO_32, 4);
    if |raw| >= 4 {
      WritesBack(raw[..4]);
    }
  }
}
