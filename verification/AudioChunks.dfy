/** Audio chunks as the capture plugins deliver them (AudioCapture.h). */
module AudioChunks {

  datatype Option<+T> = None | Some(value: T)

  type byte = x: int | 0 <= x < 0x100
  type u16 = x: int | 0 <= x < 0x1_0000
  type u32 = x: int | 0 <= x < 0x1_0000_0000

  const MEDIA_CHUNK_MARKER: u32 := 0x2A2A2A2A

  /** AudioChunkDetails. The signed fields are held as their bit patterns. */
  datatype ChunkDetails = ChunkDetails(
    marker: u32,
    encoding: u32,
    numBytes: u32,
    timestamp: u32,
    arrivalTimestamp: u32,
    sequenceNumber: u32,
    sampleRate: u32,
    rtpPayloadType: byte,
    channel: byte)

  /** A chunk whose buffer is either absent (NULL) or holds exactly details.numBytes bytes. */
  datatype AudioChunk = AudioChunk(details: ChunkDetails, buffer: Option<seq<byte>>) {
    predicate Valid() {
      buffer.Some? ==> |buffer.value| == details.numBytes
    }
  }

  /** Total number of audio bytes in a queue of chunks. */
  function SumBytes(chunks: seq<AudioChunk>): (n: nat)
  {
    if chunks == [] then 0 else chunks[0].details.numBytes + SumBytes(chunks[1..])
  }

  lemma {:induction false} SumBytesSnoc(chunks: seq<AudioChunk>, c: AudioChunk)
    ensures SumBytes(chunks + [c]) == SumBytes(chunks) + c.details.numBytes
  {
    if chunks == [] {
      assert SumBytes([c][1..]) == 0;
      assert chunks + [c] == [c];
    } else {
      assert (chunks + [c])[1..] == chunks[1..] + [c];
      SumBytesSnoc(chunks[1..], c);
    }
  }
}
