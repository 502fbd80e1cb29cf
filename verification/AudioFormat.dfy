/** The negotiated audio formats and the errors of the network audio components. */
module AudioFormat {
  import opened Common

  const MAX_CHANNELS: nat := 8

  datatype Encoding = Pcm24 | Float32

  datatype Format = Format(sampleRate: u32, channels: byte, encoding: Encoding)

  datatype AudioError =
    | InvalidEndpoint
    | InvalidConfiguration
    | UnsupportedFormat
    | FormatConflict
    | ResourceLimit
    | Unauthorized
    | VirtualLoop
    | Unavailable
    | StaleGeneration
    | InvalidChannelMap
    | InvalidPacket
    | BackendUnavailable

  function EncodingBytes(encoding: Encoding): nat {
    if encoding.Pcm24? then 3 else 4
  }

  predicate ValidFormat(format: Format) {
    (format.sampleRate == 48000 || format.sampleRate == 96000) && 1 <= format.channels <= MAX_CHANNELS
  }

  function FramesPerPacket(format: Format): nat {
    format.sampleRate / 1000
  }

  function PacketBytes(format: Format): nat {
    FramesPerPacket(format) * (format.channels * EncodingBytes(format.encoding))
  }

  lemma PacketBytesBounds(format: Format)
    requires ValidFormat(format)
    ensures FramesPerPacket(format) == 48 || FramesPerPacket(format) == 96
    ensures 0 < PacketBytes(format) <= 3072
  {
    var frame := format.channels * EncodingBytes(format.encoding);
    assert 3 <= frame <= 32;
  }
}
