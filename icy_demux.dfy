/**
 * The ICY metadata demultiplexer of src/input.rs:49-96. A response announced
 * with `icy-metaint: N` interleaves N audio bytes, one length byte L, and a
 * metadata block of L*16 bytes, over and over; with N == 0 the whole body is
 * audio. Audio bytes are appended to the spool file; each completed block may
 * update the published song title.
 *
 * The block size is computed as `*byte * 16` on a `u8`: a release build wraps
 * modulo 256 (a debug build panics), so a length byte L >= 16 announces a block
 * of (L % 16) * 16 bytes. The model follows the wrapping build.
 *
 * `Next` and `Run` are the specification on values; the class `Demuxer` holds
 * the source's mutable locals and is proved against them.
 */
module IcyDemux {
  import opened Common
  import StreamTitle

  /** `metadata_size = *byte * 16` evaluated in wrapping `u8` arithmetic. */
  function BlockSize(lengthByte: byte): (size: byte)
    ensures size == (lengthByte % 16) * 16
    ensures lengthByte < 16 ==> size == lengthByte * 16
  {
    (lengthByte * 16) % 256
  }

  /** `saturating_sub(1)` */
  function Decrement(x: nat): nat {
    if x == 0 then 0 else x - 1
  }

  /**
   * The demultiplexer's locals (`counter`, `awaiting_metadata_size`,
   * `metadata_size`, `awaiting_metadata`, `metadata`) together with what it
   * produces: the bytes written to the spool file so far and the published title.
   */
  datatype DemuxState = DemuxState(
    metaInterval: nat,
    counter: nat,
    awaitingSize: bool,
    size: byte,
    awaitingBlock: bool,
    block: seq<byte>,
    spool: seq<byte>,
    title: string)

  /** The state when the spool file has just been created for a response with the given `icy-metaint`. */
  function Initial(metaInterval: nat, title: string): (r: DemuxState)
    ensures Valid(r) && r.metaInterval == metaInterval && r.spool == [] && r.title == title
    // a framed response starts with a full interval of audio
    ensures metaInterval > 0 ==> CountingAudio(r) && r.counter == metaInterval
  {
    DemuxState(metaInterval, metaInterval, false, 0, false, [], [], title)
  }

  /** The states the demultiplexer can reach from `Initial`. */
  predicate Valid(st: DemuxState) {
    && !(st.awaitingSize && st.awaitingBlock)
    && (st.awaitingBlock <==> st.size > 0)
    && (!st.awaitingBlock ==> st.block == [])
    && |st.block| + st.size < 256
    && (st.metaInterval > 0 && !st.awaitingSize && !st.awaitingBlock ==> st.counter > 0)
  }

  /** Counting audio bytes, `counter` of them before the next length byte. */
  predicate CountingAudio(st: DemuxState) {
    st.metaInterval > 0 && !st.awaitingSize && !st.awaitingBlock && st.size == 0 && st.block == [] && st.counter > 0
  }

  /** One byte of the body (the body of `for byte in &chunk`). */
  function Next(st: DemuxState, b: byte): (r: DemuxState)
    ensures r.metaInterval == st.metaInterval
    ensures Valid(st) ==> Valid(r)
    ensures r.spool == st.spool || r.spool == st.spool + [b]
  {
    if st.metaInterval == 0 then
      st.(spool := st.spool + [b])
    else if st.awaitingSize then
      var size := BlockSize(b);
      if size == 0 then st.(awaitingSize := false, size := 0, counter := st.metaInterval)
      else st.(awaitingSize := false, size := size, awaitingBlock := true)
    else if st.awaitingBlock then
      var block := st.block + [b];
      var size := Decrement(st.size);
      if size == 0 then
        st.(awaitingBlock := false, size := 0, title := StreamTitle.NextTitle(st.title, block),
            block := [], counter := st.metaInterval)
      else
        st.(block := block, size := size)
    else
      var counter := Decrement(st.counter);
      st.(spool := st.spool + [b], counter := counter, awaitingSize := counter == 0)
  }

  /** A run of body bytes, one `Next` at a time. */
  function Run(st: DemuxState, bytes: seq<byte>): (r: DemuxState)
    decreases |bytes|
    ensures r.metaInterval == st.metaInterval
    ensures Valid(st) ==> Valid(r)
    ensures st.spool <= r.spool && |r.spool| <= |st.spool| + |bytes|
  {
    if bytes == [] then st else Run(Next(st, bytes[0]), bytes[1..])
  }

  /** The chunks of a response body, in arrival order. */
  function RunChunks(st: DemuxState, chunks: seq<seq<byte>>): (r: DemuxState)
    decreases |chunks|
    ensures r.metaInterval == st.metaInterval
    ensures Valid(st) ==> Valid(r)
    ensures st.spool <= r.spool && |r.spool| <= |st.spool| + |Flatten(chunks)|
  {
    if chunks == [] then st else RunChunks(Run(st, chunks[0]), chunks[1..])
  }

  /** Without `icy-metaint` framing every byte is audio, in order, and the title never changes. */
  lemma {:induction false} UnframedIsAudio(st: DemuxState, bytes: seq<byte>)
    requires st.metaInterval == 0
    ensures Run(st, bytes) == st.(spool := st.spool + bytes)
    decreases |bytes|
  {
    if bytes != [] {
      UnframedIsAudio(Next(st, bytes[0]), bytes[1..]);
      assert st.spool + [bytes[0]] + bytes[1..] == st.spool + bytes;
    }
  }

  lemma {:induction false} RunAppend(st: DemuxState, a: seq<byte>, b: seq<byte>)
    ensures Run(st, a + b) == Run(Run(st, a), b)
    decreases |a|
  {
    if a == [] {
      assert a + b == b;
    } else {
      assert (a + b)[0] == a[0] && (a + b)[1..] == a[1..] + b;
      RunAppend(Next(st, a[0]), a[1..], b);
    }
  }

  /** Demultiplexer state carries over chunk boundaries: the chunks act as their concatenation. */
  lemma {:induction false} RunChunksIsRun(st: DemuxState, chunks: seq<seq<byte>>)
    ensures RunChunks(st, chunks) == Run(st, Flatten(chunks))
    decreases |chunks|
  {
    if chunks != [] {
      RunChunksIsRun(Run(st, chunks[0]), chunks[1..]);
      RunAppend(st, chunks[0], Flatten(chunks[1..]));
    }
  }

  /** However the same bytes are split into chunks, the spool and the title come out the same. */
  lemma ChunkingIrrelevant(st: DemuxState, c1: seq<seq<byte>>, c2: seq<seq<byte>>)
    requires Flatten(c1) == Flatten(c2)
    ensures RunChunks(st, c1) == RunChunks(st, c2)
  {
    RunChunksIsRun(st, c1);
    RunChunksIsRun(st, c2);
  }

  /** While counting, audio bytes go to the spool; the last one of the interval arms the length byte. */
  lemma {:induction false} AudioBytes(st: DemuxState, audio: seq<byte>)
    requires CountingAudio(st) && |audio| <= st.counter
    ensures Run(st, audio) == st.(spool := st.spool + audio, counter := st.counter - |audio|,
                                  awaitingSize := |audio| == st.counter)
    decreases |audio|
  {
    if audio != [] {
      var st' := Next(st, audio[0]);
      if |audio| == 1 {
        assert audio[1..] == [];
      } else {
        AudioBytes(st', audio[1..]);
      }
      assert st.spool + [audio[0]] + audio[1..] == st.spool + audio;
    }
  }

  /** Bytes of an unfinished block are only accumulated: nothing reaches the spool, the title is unchanged. */
  lemma {:induction false} PartialBlock(st: DemuxState, bytes: seq<byte>)
    requires Valid(st) && st.metaInterval > 0 && st.awaitingBlock && |bytes| < st.size
    ensures Run(st, bytes) == st.(block := st.block + bytes, size := st.size - |bytes|)
    decreases |bytes|
  {
    if bytes != [] {
      PartialBlock(Next(st, bytes[0]), bytes[1..]);
      assert st.block + [bytes[0]] + bytes[1..] == st.block + bytes;
    }
  }

  /** The last byte of a block completes it: the title is updated from it and audio counting restarts. */
  lemma CompleteBlock(st: DemuxState, bytes: seq<byte>)
    requires Valid(st) && st.metaInterval > 0 && st.awaitingBlock && |bytes| == st.size
    ensures Run(st, bytes) == Initial(st.metaInterval, StreamTitle.NextTitle(st.title, st.block + bytes)).(spool := st.spool)
  {
    var init := bytes[..|bytes| - 1];
    PartialBlock(st, init);
    RunAppend(st, init, [bytes[|bytes| - 1]]);
    assert init + [bytes[|bytes| - 1]] == bytes;
    assert st.block + init + [bytes[|bytes| - 1]] == st.block + bytes;
  }

  /** One interval of the ICY framing: N audio bytes, a length byte L, then a block of BlockSize(L) bytes. */
  datatype Frame = Frame(audio: seq<byte>, lengthByte: byte, block: seq<byte>)

  predicate WellFormed(metaInterval: nat, f: Frame) {
    |f.audio| == metaInterval && |f.block| == BlockSize(f.lengthByte)
  }

  /** The body a server sends for these frames. */
  function Mux(frames: seq<Frame>): seq<byte> {
    if frames == [] then []
    else frames[0].audio + [frames[0].lengthByte] + frames[0].block + Mux(frames[1..])
  }

  function AudioOf(frames: seq<Frame>): seq<byte> {
    if frames == [] then [] else frames[0].audio + AudioOf(frames[1..])
  }

  /** The published title after the frames' blocks, an empty block leaving it alone. */
  function TitleAfter(title: string, frames: seq<Frame>): string
    decreases |frames|
  {
    if frames == [] then title
    else TitleAfter(if frames[0].block == [] then title else StreamTitle.NextTitle(title, frames[0].block), frames[1..])
  }

  lemma RunSingle(st: DemuxState, b: byte)
    ensures Run(st, [b]) == Next(st, b)
  {
    assert [b][1..] == [];
  }

  lemma OneFrame(st: DemuxState, f: Frame)
    requires CountingAudio(st) && st.counter == st.metaInterval && WellFormed(st.metaInterval, f)
    ensures Run(st, f.audio + [f.lengthByte] + f.block)
         == Initial(st.metaInterval, if f.block == [] then st.title else StreamTitle.NextTitle(st.title, f.block)).(spool := st.spool + f.audio)
  {
    AudioBytes(st, f.audio);
    var armed := st.(spool := st.spool + f.audio, counter := 0, awaitingSize := true);
    assert Run(st, f.audio) == armed;
    RunAppend(st, f.audio, [f.lengthByte]);
    RunSingle(armed, f.lengthByte);
    var afterLength := Next(armed, f.lengthByte);
    assert Run(st, f.audio + [f.lengthByte]) == afterLength;
    RunAppend(st, f.audio + [f.lengthByte], f.block);
    assert Run(st, f.audio + [f.lengthByte] + f.block) == Run(afterLength, f.block);
    if f.block == [] {
      assert afterLength == Initial(st.metaInterval, st.title).(spool := st.spool + f.audio);
      assert Run(afterLength, f.block) == afterLength;
    } else {
      assert afterLength == armed.(awaitingSize := false, size := BlockSize(f.lengthByte), awaitingBlock := true);
      CompleteBlock(afterLength, f.block);
      assert afterLength.block + f.block == f.block;
    }
  }

  /** The first frame of a framed body contributes its audio and its title, then counting starts afresh. */
  lemma MuxFirstFrame(metaInterval: nat, frames: seq<Frame>, spool: seq<byte>, title: string)
    requires metaInterval > 0 && frames != [] && WellFormed(metaInterval, frames[0])
    ensures Run(Initial(metaInterval, title).(spool := spool), Mux(frames))
         == Run(Initial(metaInterval, TitleAfter(title, frames[..1])).(spool := spool + frames[0].audio), Mux(frames[1..]))
  {
    var st := Initial(metaInterval, title).(spool := spool);
    var f := frames[0];
    var head := f.audio + [f.lengthByte] + f.block;
    assert Mux(frames) == head + Mux(frames[1..]);
    RunAppend(st, head, Mux(frames[1..]));
    OneFrame(st, f);
    assert frames[..1][1..] == [];
  }

  lemma TitleAfterFirst(title: string, frames: seq<Frame>)
    requires frames != []
    ensures TitleAfter(title, frames) == TitleAfter(TitleAfter(title, frames[..1]), frames[1..])
  {
    assert frames[..1][1..] == [];
  }

  /**
   * Demultiplexing undoes the ICY framing: the spool receives exactly the audio
   * bytes, no length byte and no metadata byte, and the title follows the
   * blocks; after every frame the demultiplexer is counting a fresh interval.
   */
  lemma {:induction false} DemuxOfMux(metaInterval: nat, frames: seq<Frame>, spool: seq<byte>, title: string)
    requires metaInterval > 0
    requires forall i :: 0 <= i < |frames| ==> WellFormed(metaInterval, frames[i])
    ensures Run(Initial(metaInterval, title).(spool := spool), Mux(frames))
         == Initial(metaInterval, TitleAfter(title, frames)).(spool := spool + AudioOf(frames))
    decreases |frames|
  {
    if frames == [] {
      assert spool + AudioOf(frames) == spool;
    } else {
      var rest := frames[1..];
      var title' := TitleAfter(title, frames[..1]);
      MuxFirstFrame(metaInterval, frames, spool, title);
      assert forall i :: 0 <= i < |rest| ==> rest[i] == frames[i + 1];
      DemuxOfMux(metaInterval, rest, spool + frames[0].audio, title');
      TitleAfterFirst(title, frames);
      assert AudioOf(frames) == frames[0].audio + AudioOf(rest);
      Associate(spool, frames[0].audio, AudioOf(rest));
    }
  }

  /**
   * The wrap-around in `metadata_size`: a length byte that is a non-zero
   * multiple of 16 announces an empty block, so the block's bytes that follow
   * are written to the spool as audio.
   */
  lemma WrappedLengthLeaksBlock(metaInterval: nat, audio: seq<byte>, lengthByte: byte, block: seq<byte>, spool: seq<byte>, title: string)
    requires metaInterval > 0 && |audio| == metaInterval && |block| <= metaInterval
    requires lengthByte >= 16 && lengthByte % 16 == 0
    ensures Run(Initial(metaInterval, title).(spool := spool), audio + [lengthByte] + block).spool == spool + audio + block
  {
    var st := Initial(metaInterval, title).(spool := spool);
    RunAppend(st, audio + [lengthByte], block);
    RunAppend(st, audio, [lengthByte]);
    AudioBytes(st, audio);
    var resumed := Run(st, audio + [lengthByte]);
    assert resumed == Initial(metaInterval, title).(spool := spool + audio);
    AudioBytes(resumed, block);
  }

  /** The demultiplexer of one response: the locals of src/input.rs:49-53 and what they write to. */
  class Demuxer {
    const metaInterval: nat
    var counter: nat
    var awaitingMetadataSize: bool
    var metadataSize: byte
    var awaitingMetadata: bool
    var metadata: seq<byte>
    /** What has been written to the spool file. */
    var spool: seq<byte>
    /** The shared song-title slot. */
    var title: string

    function State(): DemuxState
      reads this
    {
      DemuxState(metaInterval, counter, awaitingMetadataSize, metadataSize, awaitingMetadata, metadata, spool, title)
    }

    /** A freshly created (empty) spool file and the demultiplexer locals for a response. */
    constructor (metaInterval: nat, title: string)
      ensures State() == Initial(metaInterval, title)
    {
      this.metaInterval := metaInterval;
      counter := metaInterval;
      awaitingMetadataSize := false;
      metadataSize := 0;
      awaitingMetadata := false;
      metadata := [];
      spool := [];
      this.title := title;
    }

    method Step(b: byte)
      modifies this
      ensures State() == Next(old(State()), b)
    {
      if metaInterval != 0 {
        if awaitingMetadataSize {
          awaitingMetadataSize := false;
          metadataSize := (b * 16) % 256;
          if metadataSize == 0 {
            counter := metaInterval;
          } else {
            awaitingMetadata := true;
          }
        } else if awaitingMetadata {
          metadata := metadata + [b];
          metadataSize := if metadataSize == 0 then 0 else metadataSize - 1;
          if metadataSize == 0 {
            awaitingMetadata := false;
            var found := StreamTitle.BlockTitle(metadata);
            if found.Some? {
              title := StreamTitle.SONG_PREFIX + found.value;
            }
            metadata := [];
            counter := metaInterval;
          }
        } else {
          spool := spool + [b];
          counter := if counter == 0 then 0 else counter - 1;
          if counter == 0 {
            awaitingMetadataSize := true;
          }
        }
      } else {
        spool := spool + [b];
      }
    }

    /** One chunk, byte by byte. */
    method Feed(chunk: seq<byte>)
      modifies this
      ensures State() == Run(old(State()), chunk)
    {
      for i := 0 to |chunk|
        invariant Run(State(), chunk[i..]) == Run(old(State()), chunk)
      {
        assert chunk[i..][1..] == chunk[i + 1..];
        Step(chunk[i]);
      }
    }
  }
}
