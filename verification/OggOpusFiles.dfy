/** OggOpusFile: cutting mono PCM chunks into 160-sample frames for the encoder, with a carry buffer
    (WriteChunk, EncodeChunks and Close in OggOpusFile.cpp). Lengths are in samples; a frame handed to
    the encoder is the observable output. */
module OggOpusFiles {
  import opened AudioChunks

  type sample = x: int | -0x8000 <= x < 0x8000

  const FRAME := 160
  const PCM_BUF := 32000

  /** `carry` is the used part of m_extraPcmBuf, `count` is m_extraSamplesFromLastChunk, `pcm` is all
      of m_pcmBuf with what earlier chunks left in it. */
  datatype Reframer = Reframer(count: nat, carry: seq<sample>, pcm: seq<sample>, frames: seq<seq<sample>>)

  function Cut(s: seq<sample>): seq<seq<sample>> {
    if |s| < FRAME then [] else [s[..FRAME]] + Cut(s[FRAME..])
  }

  function Flat(frames: seq<seq<sample>>): seq<sample> {
    if frames == [] then [] else frames[0] + Flat(frames[1..])
  }

  /** How many of the chunk's samples go into whole frames; negative when the count is off so far that
      the original copies a negative number of bytes. */
  function Used(count: nat, n: nat): int {
    n - (n + count) % FRAME
  }

  predicate Valid(s: Reframer) {
    |s.carry| < FRAME && |s.carry| <= s.count && |s.pcm| == PCM_BUF && (s.count == 0 ==> s.carry == [])
  }

  /** How many samples are handed to the encoder when a chunk of n arrives. */
  function WholeFrames(count: nat, n: nat): nat {
    n + count - (n + count) % FRAME
  }

  /** The chunk is worked off inside the buffers: no negative number of bytes is copied, and the encoder
      is not sent past the end of m_pcmBuf. An empty chunk is ignored before anything is copied. */
  predicate Fits(s: Reframer, chunk: seq<sample>) {
    chunk != [] && |chunk| + s.count >= FRAME ==>
      Used(s.count, |chunk|) >= 0 && WholeFrames(s.count, |chunk|) <= PCM_BUF
  }

  function WithFrames(s: Reframer, chunk: seq<sample>): Reframer
    requires Valid(s) && Fits(s, chunk) && chunk != [] && |chunk| + s.count >= FRAME
  {
    var total := |chunk| + s.count;
    var used := Used(s.count, |chunk|);
    var placed := s.carry + chunk[..used];
    var pcm := placed + s.pcm[|placed|..];
    Reframer(total % FRAME, chunk[used..], pcm, s.frames + Cut(pcm[..total - total % FRAME]))
  }

  /** WriteChunk on an open file. */
  function Write(s: Reframer, chunk: seq<sample>): (r: Reframer)
    requires Valid(s) && Fits(s, chunk)
    ensures Valid(r)
  {
    if chunk == [] then s
    else if |chunk| + s.count < FRAME then s.(carry := s.carry + chunk, count := |chunk| + s.count + s.count)
    else WithFrames(s, chunk)
  }

  function Padded(s: seq<sample>): seq<sample>
    requires |s| <= FRAME
  {
    s + seq(FRAME - |s|, _ => 0)
  }

  /** Close: a carry is padded to a frame and encoded; it is not cleared. */
  function Close(s: Reframer): Reframer
    requires Valid(s)
  {
    if s.carry == [] then s else s.(frames := s.frames + [Padded(s.carry)])
  }

  lemma {:induction false} WithFramesIs(s: Reframer, chunk: seq<sample>, full: nat, extra: nat, pos: int,
                                        pcm: seq<sample>)
    requires Valid(s) && Fits(s, chunk) && chunk != [] && |chunk| + s.count >= FRAME
    requires full == (|chunk| + s.count) / FRAME * FRAME && extra == |chunk| + s.count - full && pos == |chunk| - extra
    requires 0 <= pos && |s.carry| + pos <= PCM_BUF && pcm == (s.carry + chunk[..pos]) + s.pcm[|s.carry| + pos..]
    ensures |pcm| == PCM_BUF && full <= PCM_BUF && full % FRAME == 0
    ensures WithFrames(s, chunk) == Reframer(extra, chunk[pos..], pcm, s.frames + Cut(pcm[..full]))
  {
  }

  // ---------- The object ----------

  class OggOpusFile {
    const pcmBuf: array<sample>
    const extraPcmBuf: array<sample>
    var extraSamplesFromLastChunk: nat
    var extraPcmBufLen: nat
    var isOpen: bool
    var frames: seq<seq<sample>>

    ghost predicate Sound()
      reads this, extraPcmBuf, pcmBuf
    {
      && pcmBuf.Length == PCM_BUF && extraPcmBuf.Length == FRAME && pcmBuf != extraPcmBuf
      && extraPcmBufLen <= FRAME && Valid(View())
    }

    ghost function View(): Reframer
      requires extraPcmBufLen <= extraPcmBuf.Length
      reads this, extraPcmBuf, pcmBuf
    {
      Reframer(extraSamplesFromLastChunk, extraPcmBuf[..extraPcmBufLen], pcmBuf[..], frames)
    }

    constructor ()
      ensures Sound() && View() == Reframer(0, [], pcmBuf[..], []) && isOpen && fresh(pcmBuf) && fresh(extraPcmBuf)
    {
      pcmBuf := new sample[PCM_BUF](_ => 0);
      extraPcmBuf := new sample[FRAME](_ => 0);
      extraSamplesFromLastChunk, extraPcmBufLen, isOpen, frames := 0, 0, true, [];
    }

    /** memcpy(&to[at], data, |data|) */
    method Copy(to: array<sample>, at: nat, data: seq<sample>)
      requires at + |data| <= to.Length
      modifies to
      ensures to[..] == old(to[..at]) + data + old(to[at + |data|..])
    {
      for i := 0 to |data|
        invariant forall k :: 0 <= k < to.Length ==> to[k] == if at <= k < at + i then data[k - at] else old(to[k])
      {
        to[at + i] := data[i];
      }
    }

    /** Frame after frame goes to the encoder. */
    method EncodeChunks(buffer: array<sample>, numSamples: nat)
      requires numSamples <= buffer.Length && numSamples % FRAME == 0
      modifies this`frames
      ensures frames == old(frames) + Cut(buffer[..numSamples])
    {
      var numFrames := numSamples / FRAME;
      assert frames + Cut(buffer[0..numSamples]) == old(frames) + Cut(buffer[..numSamples]);
      for j := 0 to numFrames
        invariant frames + Cut(buffer[j * FRAME..numSamples]) == old(frames) + Cut(buffer[..numSamples])
      {
        var rest := buffer[j * FRAME..numSamples];
        assert |rest| >= FRAME;
        assert rest[FRAME..] == buffer[(j + 1) * FRAME..numSamples];
        assert rest[..FRAME] == buffer[j * FRAME..(j + 1) * FRAME];
        assert frames + ([rest[..FRAME]] + Cut(rest[FRAME..])) == (frames + [rest[..FRAME]]) + Cut(rest[FRAME..]);
        frames := frames + [buffer[j * FRAME..(j + 1) * FRAME]];
      }
      assert frames + [] == frames;
    }

    method WriteChunk(chunk: seq<sample>)
      requires Sound() && (isOpen ==> Fits(View(), chunk))
      modifies this, pcmBuf, extraPcmBuf
      ensures Sound() && isOpen == old(isOpen)
      ensures View() == if old(isOpen) then Write(old(View()), chunk) else old(View())
    {
      if |chunk| == 0 {
        return;
      }
      if !isOpen {
        return;
      }
      if |chunk| + extraSamplesFromLastChunk < FRAME {
        StoreCarry(chunk);
      } else {
        WriteFrames(chunk);
      }
    }

    /** Too few samples for a frame: they join the carry. */
    method StoreCarry(chunk: seq<sample>)
      requires Sound() && chunk != [] && |chunk| + extraSamplesFromLastChunk < FRAME
      modifies this`extraSamplesFromLastChunk, this`extraPcmBufLen, extraPcmBuf
      ensures Sound() && View() == Write(old(View()), chunk)
    {
      var numSamples := |chunk| + extraSamplesFromLastChunk;
      ghost var carry := extraPcmBuf[..extraPcmBufLen];
      Copy(extraPcmBuf, extraPcmBufLen, chunk);
      extraPcmBufLen := extraPcmBufLen + |chunk|;
      assert extraPcmBuf[..extraPcmBufLen] == carry + chunk;
      extraSamplesFromLastChunk := numSamples + extraSamplesFromLastChunk;
    }

    /** At least one frame is complete. */
    method WriteFrames(chunk: seq<sample>)
      requires Sound() && Fits(View(), chunk) && chunk != [] && |chunk| + extraSamplesFromLastChunk >= FRAME
      modifies this, pcmBuf, extraPcmBuf
      ensures Sound() && isOpen == old(isOpen) && View() == WithFrames(old(View()), chunk)
    {
      var numSamples := |chunk| + extraSamplesFromLastChunk;
      var numFullFrames := numSamples / FRAME;
      var numSamplesInFullFrames := numFullFrames * FRAME;
      var numSamplesExtra := numSamples - numSamplesInFullFrames;
      var extraSamplesPos := |chunk| - numSamplesExtra;
      ghost var before := View();
      PlaceInFrames(chunk, extraSamplesPos);
      WithFramesIs(before, chunk, numSamplesInFullFrames, numSamplesExtra, extraSamplesPos, pcmBuf[..]);
      KeepExtra(chunk[extraSamplesPos..]);
      extraSamplesFromLastChunk := numSamplesExtra;
      EncodeChunks(pcmBuf, numSamplesInFullFrames);
    }

    /** What is left of the chunk becomes the carry. */
    method KeepExtra(extra: seq<sample>)
      requires extraPcmBufLen == 0 && |extra| <= extraPcmBuf.Length
      modifies this`extraPcmBufLen, extraPcmBuf
      ensures extraPcmBufLen == |extra| && extraPcmBuf[..extraPcmBufLen] == extra
    {
      if |extra| > 0 {
        Copy(extraPcmBuf, 0, extra);
        extraPcmBufLen := extraPcmBufLen + |extra|;
      }
    }

    /** The carry and the chunk's first samples go to the front of m_pcmBuf. */
    method PlaceInFrames(chunk: seq<sample>, extraSamplesPos: nat)
      requires Sound() && extraSamplesPos <= |chunk| && extraPcmBufLen + extraSamplesPos <= PCM_BUF
      modifies this`extraPcmBufLen, pcmBuf, extraPcmBuf
      ensures extraPcmBufLen == 0
      ensures pcmBuf[..] == var placed := old(extraPcmBuf[..extraPcmBufLen]) + chunk[..extraSamplesPos];
                            placed + old(pcmBuf[..])[|placed|..]
    {
      if extraSamplesFromLastChunk > 0 {
        ghost var carry := extraPcmBuf[..extraPcmBufLen];
        Copy(pcmBuf, 0, extraPcmBuf[..extraPcmBufLen]);
        Copy(pcmBuf, extraPcmBufLen, chunk[..extraSamplesPos]);
        assert pcmBuf[..] == carry + chunk[..extraSamplesPos] + old(pcmBuf[..])[|carry| + extraSamplesPos..];
        Copy(extraPcmBuf, 0, seq(extraPcmBufLen, _ => 0));
        extraPcmBufLen := 0;
      } else {
        Copy(pcmBuf, 0, chunk[..extraSamplesPos]);
      }
    }

    method CloseFile()
      requires Sound()
      modifies this`frames, this`isOpen, extraPcmBuf
      ensures Sound() && View() == Close(old(View())) && !isOpen
    {
      if extraPcmBufLen > 0 {
        ghost var carry := extraPcmBuf[..extraPcmBufLen];
        if extraPcmBufLen < FRAME {
          for i := extraPcmBufLen to FRAME
            invariant frames == old(frames)
            invariant extraPcmBuf[..i] == carry + seq(i - |carry|, _ => 0)
          {
            extraPcmBuf[i] := 0;
          }
        }
        assert extraPcmBuf[..FRAME] == Padded(carry);
        assert extraPcmBuf[..extraPcmBufLen] == Padded(carry)[..|carry|] == carry;
        assert Cut(Padded(carry)) == [Padded(carry)] by { assert Padded(carry)[..FRAME] == Padded(carry); }
        EncodeChunks(extraPcmBuf, FRAME);
        assert carry != [] && pcmBuf[..] == old(pcmBuf[..]);
      }
      isOpen := false;
    }
  }

  // ---------- When nothing is lost or made up ----------

  /** The count agrees with the carry whenever a chunk completes a frame, and the frames it completes
      are no more than m_pcmBuf holds. A chunk too short to complete one adds the carry to the count a
      second time, so the count is then too large. */
  predicate CountsAgree(count: nat, carried: nat, sizes: seq<nat>)
    decreases |sizes|
  {
    if sizes == [] then true
    else
      var n := sizes[0];
      if n == 0 then CountsAgree(count, carried, sizes[1..])
      else if n + count < 160 then CountsAgree(n + count + count, carried + n, sizes[1..])
      else
        && count == carried && (n + count) / 160 * 160 <= 32000
        && CountsAgree((n + count) % 160, (n + count) % 160, sizes[1..])
  }

  function Sizes(chunks: seq<seq<sample>>): (r: seq<nat>)
    ensures |r| == |chunks| && forall i :: 0 <= i < |r| ==> r[i] == |chunks[i]|
  {
    seq(|chunks|, i requires 0 <= i < |chunks| => |chunks[i]|)
  }

  /** A run of WriteChunk calls; None if one of them leaves the buffers, which ends all guarantees. */
  function WriteAll(s: Reframer, chunks: seq<seq<sample>>): (r: Option<Reframer>)
    requires Valid(s)
    ensures r.Some? ==> Valid(r.value)
    decreases |chunks|
  {
    if chunks == [] then Some(s) else if !Fits(s, chunks[0]) then None else WriteAll(Write(s, chunks[0]), chunks[1..])
  }

  /** What has come out and what is still carried. */
  function Content(s: Reframer): seq<sample> {
    Flat(s.frames) + s.carry
  }

  lemma {:induction false} FlatConcat(a: seq<seq<sample>>, b: seq<seq<sample>>)
    ensures Flat(a + b) == Flat(a) + Flat(b)
  {
    if a == [] {
      assert [] + b == b;
    } else {
      assert (a + b)[1..] == a[1..] + b;
      FlatConcat(a[1..], b);
    }
  }

  lemma {:induction false} FlatCut(s: seq<sample>)
    requires |s| % FRAME == 0
    ensures Flat(Cut(s)) == s && |Cut(s)| * FRAME == |s|
  {
    if |s| >= FRAME {
      FlatCut(s[FRAME..]);
      assert Cut(s)[1..] == Cut(s[FRAME..]);
    }
  }

  lemma {:induction false} FramesAreFull(s: seq<sample>)
    ensures forall f :: f in Cut(s) ==> |f| == FRAME
  {
    if |s| >= FRAME { FramesAreFull(s[FRAME..]); }
  }

  lemma {:induction false} WithFramesContent(s: Reframer, chunk: seq<sample>)
    requires Valid(s) && Fits(s, chunk) && chunk != [] && |chunk| + s.count >= FRAME
    ensures |Content(WithFrames(s, chunk))| == |Content(s)| + |chunk| + (s.count - |s.carry|)
    ensures s.count == |s.carry| ==> Content(WithFrames(s, chunk)) == Content(s) + chunk
  {
    var total, used := |chunk| + s.count, Used(s.count, |chunk|);
    var full := total - total % FRAME;
    var placed := s.carry + chunk[..used];
    var pcm := placed + s.pcm[|placed|..];
    PlacedContent(s.frames, s.carry, chunk, used, pcm, full);
    assert Content(WithFrames(s, chunk)) == Flat(s.frames + Cut(pcm[..full])) + chunk[used..];
  }

  lemma {:induction false} PlacedContent(frames: seq<seq<sample>>, carry: seq<sample>, chunk: seq<sample>, used: nat,
                                         pcm: seq<sample>, full: nat)
    requires used <= |chunk| && full <= |pcm| && full % FRAME == 0 && carry + chunk[..used] <= pcm
    ensures |Flat(frames + Cut(pcm[..full])) + chunk[used..]| == |Flat(frames)| + full + |chunk| - used
    ensures full == |carry| + used ==>
              Flat(frames + Cut(pcm[..full])) + chunk[used..] == (Flat(frames) + carry) + chunk
  {
    FlatConcat(frames, Cut(pcm[..full]));
    FlatCut(pcm[..full]);
    if full == |carry| + used {
      assert pcm[..full] == carry + chunk[..used];
      assert Flat(frames) + (carry + chunk[..used]) + chunk[used..] == (Flat(frames) + carry) + chunk;
    }
  }

  /** The length of what comes out grows by the chunk and, at a completed frame, by the count's error:
      that many stale samples of m_pcmBuf are encoded. */
  lemma {:induction false} WriteContent(s: Reframer, chunk: seq<sample>)
    requires Valid(s) && Fits(s, chunk)
    ensures var r := Write(s, chunk);
            |Content(r)| == |Content(s)| + |chunk|
                            + (if chunk != [] && |chunk| + s.count >= FRAME then s.count - |s.carry| else 0)
    ensures chunk == [] || |chunk| + s.count < FRAME || s.count == |s.carry| ==>
              Content(Write(s, chunk)) == Content(s) + chunk
  {
    if |chunk| + s.count >= FRAME {
      if chunk != [] { WithFramesContent(s, chunk); } else { assert Content(s) + [] == Content(s); }
    } else {
      assert Flat(s.frames) + (s.carry + chunk) == Content(s) + chunk;
    }
  }

  lemma {:induction false} SizesTail(chunks: seq<seq<sample>>)
    requires chunks != []
    ensures Sizes(chunks)[0] == |chunks[0]| && Sizes(chunks)[1..] == Sizes(chunks[1..])
  {
  }

  /** Nothing lost, nothing made up, nothing moved, and no buffer left. */
  lemma {:induction false} AgreeingRunIsExact(s: Reframer, chunks: seq<seq<sample>>)
    requires Valid(s) && CountsAgree(s.count, |s.carry|, Sizes(chunks))
    ensures var r := WriteAll(s, chunks);
            r.Some? && Content(r.value) == Content(s) + Flat(chunks)
    decreases |chunks|
  {
    if chunks == [] {
      assert Content(s) + [] == Content(s);
    } else {
      SizesTail(chunks);
      WriteContent(s, chunks[0]);
      AgreeingRunIsExact(Write(s, chunks[0]), chunks[1..]);
      assert Content(s) + chunks[0] + Flat(chunks[1..]) == Content(s) + (chunks[0] + Flat(chunks[1..]));
    }
  }

  lemma {:induction false} ContentGrows(s: Reframer, chunks: seq<seq<sample>>)
    requires Valid(s)
    ensures var r := WriteAll(s, chunks);
            r.Some? ==> |Content(r.value)| >= |Content(s)| + |Flat(chunks)|
    decreases |chunks|
  {
    if chunks != [] && Fits(s, chunks[0]) {
      WriteContent(s, chunks[0]);
      ContentGrows(Write(s, chunks[0]), chunks[1..]);
    }
  }

  lemma {:induction false} DisagreeingRunIsTooLong(s: Reframer, chunks: seq<seq<sample>>)
    requires Valid(s)
    ensures var r := WriteAll(s, chunks);
            r.Some? && !CountsAgree(s.count, |s.carry|, Sizes(chunks)) ==>
              |Content(r.value)| > |Content(s)| + |Flat(chunks)|
    decreases |chunks|
  {
    if chunks != [] && Fits(s, chunks[0]) {
      SizesTail(chunks);
      WriteContent(s, chunks[0]);
      ContentGrows(Write(s, chunks[0]), chunks[1..]);
      DisagreeingRunIsTooLong(Write(s, chunks[0]), chunks[1..]);
    }
  }

  function NewReframer(pcm: seq<sample>): Reframer {
    Reframer(0, [], pcm, [])
  }

  /** For every sequence of chunks: no call leaves the buffers and the frames followed by the carry are
      all samples in order, if and only if the counts agree, which the chunk sizes alone decide. */
  lemma {:induction false} ExactIff(pcm: seq<sample>, chunks: seq<seq<sample>>)
    requires |pcm| == PCM_BUF
    ensures var r := WriteAll(NewReframer(pcm), chunks);
            r.Some? && Content(r.value) == Flat(chunks) <==> CountsAgree(0, 0, Sizes(chunks))
  {
    var s := NewReframer(pcm);
    assert Content(s) == [];
    if CountsAgree(0, 0, Sizes(chunks)) {
      AgreeingRunIsExact(s, chunks);
      assert [] + Flat(chunks) == Flat(chunks);
    } else {
      DisagreeingRunIsTooLong(s, chunks);
    }
  }

  ghost predicate AllFull(frames: seq<seq<sample>>) {
    forall f :: f in frames ==> |f| == FRAME
  }

  lemma {:induction false} FramesStayFull(s: Reframer, chunks: seq<seq<sample>>)
    requires Valid(s) && AllFull(s.frames)
    ensures var r := WriteAll(s, chunks);
            r.Some? ==> AllFull(r.value.frames)
    decreases |chunks|
  {
    if chunks != [] && Fits(s, chunks[0]) {
      var chunk := chunks[0];
      if chunk != [] && |chunk| + s.count >= FRAME {
        var total, used := |chunk| + s.count, Used(s.count, |chunk|);
        var placed := s.carry + chunk[..used];
        FramesAreFull((placed + s.pcm[|placed|..])[..total - total % FRAME]);
      }
      FramesStayFull(Write(s, chunk), chunks[1..]);
    }
  }

  lemma {:induction false} FlatLength(frames: seq<seq<sample>>)
    requires AllFull(frames)
    ensures |Flat(frames)| == |frames| * FRAME
  {
    if frames != [] {
      assert frames[0] in frames;
      FlatLength(frames[1..]);
    }
  }

  lemma {:induction false} CloseContent(s: Reframer)
    requires Valid(s) && AllFull(s.frames)
    ensures AllFull(Close(s).frames)
    ensures Flat(Close(s).frames) == if s.carry == [] then Content(s) else Content(s) + seq(FRAME - |s.carry|, _ => 0)
  {
    if s.carry == [] {
      assert Content(s) == Flat(s.frames);
    } else {
      var last: seq<sample> := Padded(s.carry);
      FlatConcat(s.frames, [last]);
      assert [last][1..] == [] && last + [] == last;
      assert Flat(s.frames) + (s.carry + seq(FRAME - |s.carry|, _ => 0)) == Content(s) + seq(FRAME - |s.carry|, _ => 0);
    }
  }

  /** After the first Close of an agreeing run the encoder has seen all samples, padded with zeros to a
      whole number of frames: the total divided by 160, rounded up. */
  lemma {:induction false} CloseCompletes(pcm: seq<sample>, chunks: seq<seq<sample>>)
    requires |pcm| == PCM_BUF && CountsAgree(0, 0, Sizes(chunks))
    ensures var r := WriteAll(NewReframer(pcm), chunks);
            && r.Some?
            && var frames := Close(r.value).frames;
            var total := |Flat(chunks)|;
            && |frames| == (total + 159) / 160 && (forall f :: f in frames ==> |f| == 160)
            && Flat(frames) == Flat(chunks) + seq(|frames| * 160 - total, _ => 0)
  {
    ExactIff(pcm, chunks);
    var s := WriteAll(NewReframer(pcm), chunks).value;
    FramesStayFull(NewReframer(pcm), chunks);
    CloseContent(s);
    FlatLength(s.frames);
    FlatLength(Close(s).frames);
    assert Content(s) + [] == Content(s);
  }

  /** A second Close encodes a pending carry once more. */
  lemma {:induction false} SecondCloseRepeats(s: Reframer)
    requires Valid(s)
    ensures Close(Close(s)).frames == Close(s).frames + (if s.carry == [] then [] else [Padded(s.carry)])
  {
    assert Close(s).frames + [] == Close(s).frames;
  }

  /** A pending carry is always completed by the very next chunk. */
  predicate CarryCompletedNext(carried: nat, sizes: seq<nat>)
    decreases |sizes|
  {
    sizes == [] ||
      (if sizes[0] == 0 then CarryCompletedNext(carried, sizes[1..])
       else
         && (carried == 0 || sizes[0] + carried >= FRAME)
         && CarryCompletedNext((sizes[0] + carried) % FRAME, sizes[1..]))
  }

  /** Then, with chunks no larger than m_pcmBuf, the counts agree. */
  lemma {:induction false} CompletedNextAgrees(carried: nat, sizes: seq<nat>)
    requires carried < FRAME && CarryCompletedNext(carried, sizes)
    requires forall i :: 0 <= i < |sizes| ==> sizes[i] <= PCM_BUF
    ensures CountsAgree(carried, carried, sizes)
    decreases |sizes|
  {
    if sizes != [] {
      assert forall i :: 0 <= i < |sizes| - 1 ==> sizes[1..][i] == sizes[i + 1];
      CompletedNextAgrees(if sizes[0] == 0 then carried else (sizes[0] + carried) % FRAME, sizes[1..]);
    }
  }

  /** Two short chunks in a row throw the count off: 100, 30 and 100 samples give 100 stale ones. */
  lemma {:induction false} ShortChunksMakeUpSamples(pcm: seq<sample>, a: seq<sample>, b: seq<sample>, c: seq<sample>)
    requires |pcm| == PCM_BUF && |a| == 100 && |b| == 30 && |c| == 100
    ensures var r := WriteAll(NewReframer(pcm), [a, b, c]);
            r.Some? && |Content(r.value)| == 330
  {
    var s0 := NewReframer(pcm);
    var s2 := ShortTwice(s0, a, b, c);
    var s3 := Write(s2, c);
    assert WriteAll(s3, []) == Some(s3) && [c][1..] == [];
    assert WriteAll(s2, [c]) == WriteAll(s3, [c][1..]);
    WriteContent(s0, a);
    WriteContent(Write(s0, a), b);
    WriteContent(s2, c);
    assert Content(s0) == [];
  }

  /** And 100, 50 and 5 samples have the original copy a negative number of bytes. */
  lemma {:induction false} ShortChunksLeaveBuffer(pcm: seq<sample>, a: seq<sample>, b: seq<sample>, c: seq<sample>)
    requires |pcm| == PCM_BUF && |a| == 100 && |b| == 50 && |c| == 5
    ensures WriteAll(NewReframer(pcm), [a, b, c]) == None
    ensures Used(250, 5) == -90
  {
    var s2 := ShortTwice(NewReframer(pcm), a, b, c);
    assert !Fits(s2, c);
  }

  lemma {:induction false} ShortTwice(s: Reframer, a: seq<sample>, b: seq<sample>, c: seq<sample>)
    returns (s2: Reframer)
    requires Valid(s) && s.count == 0 && 0 < |a| && 0 < |b| && |a| + |b| < FRAME
    ensures Valid(s2) && s2 == Write(Write(s, a), b) && s2.count == |b| + 2 * |a| && |s2.carry| == |a| + |b|
    ensures WriteAll(s, [a, b, c]) == WriteAll(s2, [c])
  {
    var s1 := Write(s, a);
    s2 := Write(s1, b);
    assert [a, b, c][1..] == [b, c] && [b, c][1..] == [c];
    assert WriteAll(s, [a, b, c]) == WriteAll(s1, [b, c]);
    assert WriteAll(s1, [b, c]) == WriteAll(s2, [c]);
  }
}
