/** Visual frame packets: a four-byte header length, the header, and the image. */
module VisualFrames {
  import opened Prelude
  import opened Framing

  const MAX_HEADER: nat := 64 * 1024
  const MAX_PAYLOAD: nat := 16 * 1024 * 1024

  datatype Metadata = Metadata(kind: string, streamId: string, frameSeq: nat, sessionId: string, tabId: string, documentId: string)

  datatype FrameError = HeaderTooLarge | PayloadTooLarge | Truncated | HeaderInvalid | MetadataInvalid

  /** The metadata's text form is left to a library; reading may yield anything that is an object. */
  datatype Codec = Codec(encode: Metadata -> Octets, decode: Octets -> Option<Metadata>)

  /** The metadata at hand is read back as it was written. */
  predicate ReadsBack(c: Codec, m: Metadata) {
    c.decode(c.encode(m)) == Some(m) && |c.encode(m)| >= 2
  }

  const FRAME_KIND := "visual_frame"

  function Encode(c: Codec, m: Metadata, data: Octets): Result<Octets, FrameError> {
    var header := c.encode(m);
    if |header| > MAX_HEADER then Err(HeaderTooLarge)
    else if |data| > MAX_PAYLOAD then Err(PayloadTooLarge)
    else Ok(Pack4(|header|) + header + data)
  }

  function Decode(c: Codec, packet: Octets): Result<(Metadata, Octets), FrameError> {
    if |packet| < 4 then Err(Truncated)
    else
      var length := Length4(packet[..4]);
      if length < 2 || length > MAX_HEADER then Err(HeaderInvalid)
      else if 4 + length > |packet| then Err(Truncated)
      else
        match c.decode(packet[4..4 + length])
        case None => Err(MetadataInvalid)
        case Some(m) => if m.kind != FRAME_KIND then Err(MetadataInvalid) else Ok((m, packet[4 + length..]))
  }

  lemma PacketParts(header: Octets, data: Octets)
    requires |header| <= MAX_HEADER
    ensures var packet := Pack4(|header|) + header + data;
      && |packet| == 4 + |header| + |data| && Length4(packet[..4]) == |header|
      && packet[4..4 + |header|] == header && packet[4 + |header|..] == data
  {
    hide Pack4, Length4;
    TakeDrop(Pack4(|header|), header, data);
  }

  /** A packet decodes to the frame it was encoded from. */
  lemma DecodeInvertsEncode(c: Codec, m: Metadata, data: Octets)
    requires ReadsBack(c, m) && m.kind == FRAME_KIND
    ensures Encode(c, m, data).Ok? ==> Decode(c, Encode(c, m, data).value) == Ok((m, data))
  {
    hide Pack4, Length4;
    if Encode(c, m, data).Ok? {
      PacketParts(c.encode(m), data);
    }
  }

  ghost predicate IsPacketOf(c: Codec, packet: Octets, m: Metadata, data: Octets, header: Octets) {
    && 2 <= |header| <= MAX_HEADER && c.decode(header) == Some(m) && m.kind == FRAME_KIND
    && packet == Pack4(|header|) + header + data
  }

  /** A packet decodes to a frame exactly when it is the length, a header of it, and its image. */
  lemma DecodesExactly(c: Codec, packet: Octets, m: Metadata, data: Octets)
    requires IsBytes(packet)
    ensures Decode(c, packet) == Ok((m, data)) <==> exists header :: IsPacketOf(c, packet, m, data, header)
  {
    hide Pack4, Length4;
    if Decode(c, packet) == Ok((m, data)) {
      var length := Length4(packet[..4]);
      var header := packet[4..4 + length];
      SliceIsBytes(packet, 0, 4);
      assert packet[0..4] == packet[..4];
      PackUnique(packet[..4]);
      assert packet == packet[..4] + header + packet[4 + length..];
      assert IsPacketOf(c, packet, m, data, header);
    }
    if header :| IsPacketOf(c, packet, m, data, header) {
      PacketParts(header, data);
    }
  }
}
