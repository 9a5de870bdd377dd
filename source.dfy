/**
 * The decode side of src/audio/source.rs: how decoded frames are cut into chunks and
 * admitted into the shared ring under the dynamic watermark, how a packed PCM frame is
 * de-interleaved, the flags of `FFmpegSourceStatus`, and the decode thread taken apart
 * into the steps it performs between two waits.
 *
 * ffmpeg itself is not part of this model: what opening a file reports is a
 * `MediaProbe`, what the demuxer yields is a sequence of `Packet`s handed to the thread
 * one at a time, and a packet carries the resampled frames its decoding produces.
 */
module Source {
  import opened Common
  import opened Sample
  import opened Ring
  import opened Device

  /** 2^64: `usize` arithmetic wraps modulo this in a release build. */
  const UsizeModulus: int := 0x1_0000_0000_0000_0000

  /** No Rust slice or ring holds more than `isize::MAX` elements. */
  const IsizeMax: int := 0x7fff_ffff_ffff_ffff

  type Usize = n: nat | n < UsizeModulus

  /** The contents of one data plane: a Rust slice, so at most `isize::MAX` values. */
  type Plane = s: seq<real> | |s| <= IsizeMax

  // ---------------------------------------------------------------------------------
  // Chunking: `slice.chunks(chunk_size)`

  /** The concatenation of a sequence of chunks. */
  function Flatten<T>(chunks: seq<seq<T>>): seq<T>
  {
    if chunks == [] then [] else chunks[0] + Flatten(chunks[1..])
  }

  lemma {:induction false} FlattenSnoc<T>(chunks: seq<seq<T>>, j: nat)
    requires j < |chunks|
    ensures Flatten(chunks[..j + 1]) == Flatten(chunks[..j]) + chunks[j]
  {
    if j > 0 {
      FlattenSnoc(chunks[1..], j - 1);
      assert chunks[1..][..j] == chunks[..j + 1][1..];
      assert chunks[1..][..j - 1] == chunks[..j][1..];
    } else {
      assert chunks[..1] == [chunks[0]];
      assert chunks[..1][1..] == [];
    }
  }

  /** The same step for a window `chunks[from..i]` that grows by one chunk. */
  lemma FlattenRange<T>(chunks: seq<seq<T>>, from: nat, i: nat)
    requires from <= i < |chunks|
    ensures Flatten(chunks[from..i + 1]) == Flatten(chunks[from..i]) + chunks[i]
  {
    FlattenSnoc(chunks[from..], i - from);
    assert chunks[from..][..i - from + 1] == chunks[from..i + 1];
    assert chunks[from..][..i - from] == chunks[from..i];
  }

  /** The first j chunks concatenate to a prefix of all of them. */
  lemma {:induction false} FlattenPrefix<T>(chunks: seq<seq<T>>, j: nat)
    requires j <= |chunks|
    ensures Flatten(chunks[..j]) <= Flatten(chunks)
  {
    if j > 0 {
      FlattenPrefix(chunks[1..], j - 1);
      assert chunks[1..][..j - 1] == chunks[..j][1..];
    }
  }

  /** `slice.chunks(size)`: consecutive pieces of exactly `size` elements, the last one
      possibly shorter and never empty, which concatenate back to the slice.
      `chunks(0)` panics in the source. */
  function Chunks<T>(s: seq<T>, size: nat): (r: seq<seq<T>>)
    requires size > 0
    ensures Flatten(r) == s
    ensures forall i :: 0 <= i < |r| ==> 1 <= |r[i]| <= size
    ensures forall i :: 0 <= i < |r| - 1 ==> |r[i]| == size
    ensures forall i :: 0 <= i < |r| ==> |r[i]| <= |s|
    ensures s == [] <==> r == []
    decreases |s|
  {
    if |s| <= size then
      (if s == [] then [] else [s])
    else
      var rest := Chunks(s[size..], size);
      assert ([s[..size]] + rest)[1..] == rest;
      [s[..size]] + rest
  }

  // ---------------------------------------------------------------------------------
  // The watermark admission test of `blocking_write_buffer`

  /** `chunk.len() + producer.capacity() - dynamic_device_buffer_size` in `usize`. */
  function Threshold(chunkLen: nat, capacity: nat, dyn: nat): (t: int)
    ensures 0 <= t < UsizeModulus
  {
    (chunkLen + capacity - dyn) % UsizeModulus
  }

  /** The wait loop is left (the chunk is admitted, playing aside) once
      `remaining` is no longer below the threshold. */
  predicate Admits(remaining: nat, chunkLen: nat, capacity: nat, dyn: nat)
  {
    !(remaining < Threshold(chunkLen, capacity, dyn))
  }

  /** With a watermark no larger than the ring plus the chunk the subtraction does not
      wrap, and admission means exactly: occupancy plus the chunk stays within the
      watermark. */
  lemma AdmitsWithinWatermark(occupancy: nat, chunkLen: nat, capacity: nat, dyn: nat)
    requires occupancy <= capacity <= IsizeMax && chunkLen <= IsizeMax
    requires dyn <= chunkLen + capacity
    ensures Admits(capacity - occupancy, chunkLen, capacity, dyn) <==> occupancy + chunkLen <= dyn
  {
  }

  /** A watermark larger than the ring plus the chunk wraps the threshold around to a
      value beyond any `remaining`: the chunk is never admitted. */
  lemma WrappedThresholdNeverAdmits(remaining: nat, chunkLen: nat, capacity: nat, dyn: nat)
    requires remaining <= capacity <= IsizeMax && chunkLen <= IsizeMax && dyn < UsizeModulus
    requires chunkLen + capacity < dyn
    ensures !Admits(remaining, chunkLen, capacity, dyn)
  {
    assert Threshold(chunkLen, capacity, dyn) == UsizeModulus + chunkLen + capacity - dyn;
  }

  /** Forward progress: a chunk of at most half the watermark, itself within the ring,
      is admitted as soon as the ring has been drained to half the watermark, in
      particular once it is empty. */
  lemma ChunkFitsDrainedRing(occupancy: nat, chunkLen: nat, capacity: nat, dyn: nat)
    requires capacity <= IsizeMax && dyn <= capacity
    requires chunkLen <= dyn / 2 && occupancy <= dyn - dyn / 2
    ensures Admits(capacity - occupancy, chunkLen, capacity, dyn)
  {
    AdmitsWithinWatermark(occupancy, chunkLen, capacity, dyn);
  }

  // ---------------------------------------------------------------------------------
  // `ffmpeg_frame_to_slice`

  /** A resampled frame: whether it is packed (interleaved), its channel count, and the
      `samples * channels` values its first data plane holds. */
  datatype PcmFrame = PcmFrame(packed: bool, channels: nat, pcm: Plane)

  /** `chunks_exact(c)`: the complete groups of `c` consecutive values, a trailing
      partial group dropped. */
  function ExactChunks<X>(s: seq<X>, c: nat): (r: seq<seq<X>>)
    requires 1 <= c
    ensures forall k :: 0 <= k < |r| ==> |r[k]| == c
    ensures r != [] ==> c <= |s|
    decreases |s|
  {
    if |s| < c then [] else [s[..c]] + ExactChunks(s[c..], c)
  }

  /** Where the k-th group of `c` values starts, by repeated addition. */
  function Offset(k: nat, c: nat): nat
  {
    if k == 0 then 0 else Offset(k - 1, c) + c
  }

  lemma {:induction false} OffsetIsProduct(k: nat, c: nat)
    ensures Offset(k, c) == k * c
  {
    if k > 0 {
      OffsetIsProduct(k - 1, c);
      MulSucc(k - 1, c);
    }
  }

  /** The groups cover all of `s` but for fewer than `c` trailing values. */
  lemma {:induction false} ExactChunksSpan<X>(s: seq<X>, c: nat)
    requires 1 <= c
    ensures Offset(|ExactChunks(s, c)|, c) <= |s| < Offset(|ExactChunks(s, c)|, c) + c
    decreases |s|
  {
    if |s| >= c {
      ExactChunksSpan(s[c..], c);
      assert |ExactChunks(s, c)| == |ExactChunks(s[c..], c)| + 1;
    }
  }

  /** Group k is the `c` values starting at `o`, which is `Offset(k, c)`. */
  lemma {:induction false} ChunkAt<X>(s: seq<X>, c: nat, k: nat, o: nat)
    requires 1 <= c
    requires k < |ExactChunks(s, c)|
    requires o == Offset(k, c)
    ensures o + c <= |s|
    ensures ExactChunks(s, c)[k] == s[o..o + c]
    decreases k
  {
    assert ExactChunks(s, c) == [s[..c]] + ExactChunks(s[c..], c);
    if k > 0 {
      var b := Offset(k - 1, c);
      ChunkAt(s[c..], c, k - 1, b);
      assert s[c..][b..b + c] == s[b + c..b + c + c];
    }
  }

  /** The frames `chunks_exact(c).map(from_slice)` yields: one per complete group of
      `c` values. */
  function Deinterleave(pcm: seq<real>, c: nat): (r: seq<AudioSample>)
    requires 1 <= c && (c <= Slots || |pcm| < c)
    ensures forall k :: 0 <= k < |r| ==> r[k].channels == c
  {
    var groups := ExactChunks(pcm, c);
    seq(|groups|, k requires 0 <= k < |groups| => OfValues(groups[k]))
  }

  /** One frame per complete group: `|pcm| / c` of them. */
  lemma DeinterleaveLength(pcm: seq<real>, c: nat)
    requires 1 <= c && (c <= Slots || |pcm| < c)
    ensures |Deinterleave(pcm, c)| * c <= |pcm| < |Deinterleave(pcm, c)| * c + c
  {
    ExactChunksSpan(pcm, c);
    OffsetIsProduct(|ExactChunks(pcm, c)|, c);
  }

  /** Frame k is built from the k-th group of `c` values. */
  lemma DeinterleaveFrame(pcm: seq<real>, c: nat, k: nat)
    requires 1 <= c <= Slots && k < |Deinterleave(pcm, c)|
    ensures 0 <= k * c && k * c + c <= |pcm|
    ensures Deinterleave(pcm, c)[k] == OfValues(pcm[k * c..k * c + c])
  {
    ChunkAt(pcm, c, k, Offset(k, c));
    OffsetIsProduct(k, c);
  }

  /** The first group becomes the first frame; the rest are the frames of what
      follows it. */
  lemma DeinterleaveUnfold(pcm: seq<real>, c: nat)
    requires 1 <= c <= Slots && c <= |pcm|
    ensures Deinterleave(pcm, c) == [OfValues(pcm[..c])] + Deinterleave(pcm[c..], c)
  {
    assert ExactChunks(pcm, c) == [pcm[..c]] + ExactChunks(pcm[c..], c);
  }

  /** `ffmpeg_frame_to_slice`; None where the source panics: a planar frame, a zero
      channel count (`chunks_exact(0)`), or more than eight channels once there is at
      least one group to copy (`from_slice`). */
  function FrameToSlice(f: PcmFrame): (r: Option<seq<AudioSample>>)
    ensures r.None? <==> !f.packed || f.channels == 0 || (f.channels > Slots && |f.pcm| >= f.channels)
    ensures r.Some? ==> r.value == Deinterleave(f.pcm, f.channels) && |r.value| <= |f.pcm|
  {
    if !f.packed || f.channels == 0 || (f.channels > Slots && |f.pcm| >= f.channels) then None
    else
      DeinterleaveLength(f.pcm, f.channels);
      MulMonotone(1, f.channels, |Deinterleave(f.pcm, f.channels)|);
      Some(Deinterleave(f.pcm, f.channels))
  }

  /** The live slots of each frame, concatenated: the packed layout again. */
  function Interleave(frames: seq<AudioSample>): (r: seq<real>)
  {
    if frames == [] then [] else frames[0].data[..frames[0].channels] + Interleave(frames[1..])
  }

  /** De-interleaving and interleaving again gives back every complete group: the
      packed values less the trailing partial group. */
  lemma {:induction false} InterleaveDeinterleave(pcm: seq<real>, c: nat)
    requires 1 <= c <= Slots
    ensures Interleave(Deinterleave(pcm, c)) <= pcm
    ensures |pcm| - |Interleave(Deinterleave(pcm, c))| < c
    decreases |pcm|
  {
    if |pcm| >= c {
      InterleaveDeinterleave(pcm[c..], c);
      DeinterleaveUnfold(pcm, c);
      OfValuesRoundTrip(pcm[..c]);
      assert pcm == pcm[..c] + pcm[c..];
    }
  }

  /** Interleaving frames of `c` channels whose dead slots are zero, then
      de-interleaving, gives the same frames back. */
  lemma {:induction false} DeinterleaveInterleave(frames: seq<AudioSample>, c: nat)
    requires 1 <= c <= Slots
    requires forall k :: 0 <= k < |frames| ==> frames[k] == OfValues(frames[k].data[..c])
    ensures Deinterleave(Interleave(frames), c) == frames
    decreases |frames|
  {
    if frames != [] {
      DeinterleaveInterleave(frames[1..], c);
      var pcm := Interleave(frames);
      assert frames[0] == OfValues(frames[0].data[..c]);
      assert pcm[..c] == frames[0].data[..c];
      assert pcm[c..] == Interleave(frames[1..]);
      DeinterleaveUnfold(pcm, c);
    }
  }

  // ---------------------------------------------------------------------------------
  // `FFmpegSourceStatus` and `blocking_write_buffer`

  /** `FFmpegSourceStatus`: the flags shared by a source and its decode thread. */
  class SourceStatus {
    var droppingFrames: bool
    /** `avaliable`: a file is open and the thread should keep going. */
    var available: bool
    var playing: bool
    /** Milliseconds. */
    var currentTime: int
    var isEnd: bool

    constructor ()
      ensures !droppingFrames && !available && !playing && currentTime == 0 && !isEnd
    {
      droppingFrames := false;
      available := false;
      playing := false;
      currentTime := 0;
      isEnd := false;
    }
  }

  /** How a call of the chunk writer ends. */
  datatype WriteOutcome =
    | Completed            // every chunk pushed
    | Unavailable(at: nat)  // returned on `avaliable == false` before chunk `at`
    | Dropped(at: nat)      // returned on `dropping_frames` before chunk `at`
    | Waiting(at: nat)      // chunk `at` is not admitted yet: the thread sleeps, then re-tests

  /** The number of chunks handled when the writer stopped. */
  function Reached(o: WriteOutcome, n: nat): nat
  {
    if o.Completed? then n else o.at
  }

  predicate ChunksFit<T>(chunks: seq<seq<T>>)
  {
    forall i :: 0 <= i < |chunks| ==> |chunks[i]| <= IsizeMax
  }

  lemma AdmittedWithinWatermark(occupancy: nat, chunkLen: nat, capacity: nat, dyn: Usize)
    requires occupancy <= capacity <= IsizeMax && chunkLen <= IsizeMax
    requires Admits(capacity - occupancy, chunkLen, capacity, dyn)
    ensures occupancy + chunkLen <= dyn
  {
    if dyn <= chunkLen + capacity {
      AdmitsWithinWatermark(occupancy, chunkLen, capacity, dyn);
    } else {
      WrappedThresholdNeverAdmits(capacity - occupancy, chunkLen, capacity, dyn);
    }
  }

  /** The `for chunk in chunks` loop of `blocking_write_buffer` from chunk `from` on, with
      the polling wait cut at its first sleep. `resumed` says the thread is coming back
      from that sleep inside the wait loop at chunk `from`, so the availability test at
      the head of the `for` body is not repeated. The flags do not change during a call;
      between calls the consumer may pop and the flags may be set. */
  method WriteChunks(status: SourceStatus, dyn: Usize, chunks: seq<seq<AudioSample>>, from: nat, resumed: bool, producer: SampleRing)
      returns (outcome: WriteOutcome)
    requires producer.Valid() && producer.capacity <= IsizeMax && ChunksFit(chunks)
    requires from <= |chunks| && (resumed ==> from < |chunks|)
    modifies producer
    ensures producer.Valid()
    ensures from <= Reached(outcome, |chunks|) <= |chunks|
    ensures !outcome.Completed? ==> outcome.at < |chunks|
    ensures old(producer.contents) <= producer.contents
    ensures |producer.contents| <= Max(|old(producer.contents)|, dyn)
    ensures dyn <= producer.capacity ==>
              producer.contents == old(producer.contents) + Flatten(chunks[from..Reached(outcome, |chunks|)])
    ensures outcome.Unavailable? ==> !status.available
    ensures outcome.Dropped? ==> status.droppingFrames
    ensures outcome.Waiting? ==>
              && status.available && !status.droppingFrames
              && !(status.playing && Admits(producer.Remaining(), |chunks[outcome.at]|, producer.capacity, dyn))
    ensures status.available && !status.playing && !status.droppingFrames && from < |chunks| ==> outcome == Waiting(from)
    ensures !status.available && !resumed && from < |chunks| ==> outcome == Unavailable(from)
    ensures status.droppingFrames || !status.playing || (!status.available && !resumed) ==>
              producer.contents == old(producer.contents)
  {
    ghost var q0 := producer.contents;
    var i := from;
    var atWait := resumed;
    while i < |chunks|
      invariant from <= i <= |chunks|
      invariant atWait ==> i == from && resumed
      invariant producer.Valid()
      invariant q0 <= producer.contents
      invariant |producer.contents| <= Max(|q0|, dyn)
      invariant dyn <= producer.capacity ==> producer.contents == q0 + Flatten(chunks[from..i])
      invariant i > from ==> status.playing && !status.droppingFrames && (status.available || resumed)
      invariant i == from ==> producer.contents == q0
    {
      if !atWait && !status.available {
        return Unavailable(i);
      }
      if !Admits(producer.Remaining(), |chunks[i]|, producer.capacity, dyn) || !status.playing {
        if !status.available {
          return Unavailable(i);
        }
        if status.droppingFrames {
          return Dropped(i);
        }
        return Waiting(i);
      }
      if status.droppingFrames {
        return Dropped(i);
      }
      AdmittedWithinWatermark(|producer.contents|, |chunks[i]|, producer.capacity, dyn);
      ghost var before := producer.contents;
      var _ := producer.PushSlice(chunks[i]);
      if dyn <= producer.capacity {
        FlattenRange(chunks, from, i);
        assert producer.contents == before + chunks[i];
      }
      i := i + 1;
      atWait := false;
    }
    return Completed;
  }

  /** `blocking_write_buffer`: the slice cut into chunks of `chunk_size` and written
      chunk by chunk. What reaches the ring is always a prefix of the slice, and all of
      it once the writer completes. `chunks(0)` panics in the source. */
  method BlockingWriteBuffer(status: SourceStatus, chunkSize: nat, dyn: Usize, slice: seq<AudioSample>, producer: SampleRing)
      returns (outcome: WriteOutcome)
    requires chunkSize > 0 && |slice| <= IsizeMax
    requires producer.Valid() && producer.capacity <= IsizeMax
    modifies producer
    ensures producer.Valid()
    ensures old(producer.contents) <= producer.contents
    ensures |producer.contents| <= Max(|old(producer.contents)|, dyn)
    ensures dyn <= producer.capacity ==> producer.contents[|old(producer.contents)|..] <= slice
    ensures dyn <= producer.capacity && outcome.Completed? ==> producer.contents == old(producer.contents) + slice
    ensures outcome.Unavailable? ==> !status.available
    ensures outcome.Dropped? ==> status.droppingFrames
    ensures outcome.Waiting? ==> status.available && !status.droppingFrames
    ensures !status.available ==> outcome == Unavailable(0) || (slice == [] && outcome.Completed?)
    ensures status.droppingFrames || !status.playing || !status.available ==> producer.contents == old(producer.contents)
  {
    var chunks := Chunks(slice, chunkSize);
    outcome := WriteChunks(status, dyn, chunks, 0, false, producer);
    if dyn <= producer.capacity {
      FlattenPrefix(chunks, Reached(outcome, |chunks|));
      assert chunks[0..Reached(outcome, |chunks|)] == chunks[..Reached(outcome, |chunks|)];
      assert chunks[..|chunks|] == chunks;
    }
  }

  // ---------------------------------------------------------------------------------
  // `FFmpegSource`

  /** `MediaInfo` (src/info/media.rs). */
  datatype MediaInfo = MediaInfo(duration: int, bitrate: int, cover: Option<seq<bv8>>)

  /** `MediaInfo::default()`. */
  const DefaultMediaInfo: MediaInfo := MediaInfo(0, 0, None)

  datatype SourceError =
    | OpenMediaFileWithFFmpeg(message: string)
    | OpenMediaFile(message: string)
    | CloseMediaFile(message: string)
    | Seek(message: string)
    | SendSeek(message: string)

  const OpenInputMessage: string := "the file could not be opened, either because the file does not exist, cannot be accessed, or the file format is not supported"
  const AudioStreamMessage: string := "failed to get audio stream"
  const CodecContextMessage: string := "failed to create codec context"
  const DecoderMessage: string := "failed to create audio decoder"
  const CodecParametersMessage: string := "failed to set codec parameters"
  const ResamplerMessage: string := "failed to create resampler"
  const NoFileOpenedMessage: string := "no file opened"
  const ThreadTerminatedMessage: string := "decoding thread may have terminated"

  /** What ffmpeg reports while `open` sets up a file, in the order it is asked. */
  datatype MediaProbe = MediaProbe(
    inputOpens: bool,
    cover: Option<seq<bv8>>,    // the first attached picture, if any
    audioStream: Option<nat>,   // index of the best audio stream
    codecContextOk: bool,
    decoderOk: bool,
    parametersOk: bool,
    durationMs: int,             // the container duration, already in milliseconds
    resamplerOk: bool)

  /** One output of the resampler while a packet is decoded. */
  datatype Resampled = Frame(frame: PcmFrame) | ResampleFails

  /** A demuxed packet: its stream, its time stamp in milliseconds, whether the decoder
      accepts it, and what decoding and resampling it yields. */
  datatype Packet = Packet(stream: nat, ptsMs: Option<int>, sendOk: bool, output: seq<Resampled>)

  /** Where the decode thread is. Each step runs until the thread would sleep, block,
      or change phase. */
  datatype WorkerPhase =
    | NotStarted                    // no thread (before a successful `open`)
    | OuterTop                      // head of the outer loop
    | InnerTop(seek: Option<int>)   // head of the seekable loop, with the pending seek
    | NextPacket                    // head of `for (stream, packet) in input_ctx.packets()`
    | WaitPlaying(packet: Packet)   // `while !playing`, holding the packet just read
    | Decoding(output: seq<Resampled>, chunkSize: nat, dyn: Usize)   // in `decode_to_buffer`
    | Writing(output: seq<Resampled>, chunks: seq<seq<AudioSample>>, next: nat, resumed: bool, chunkSize: nat, dyn: Usize)
                                    // in `blocking_write_buffer` for the head output
    | Finishing                     // after the seekable loop: end of stream
    | EndWait                       // the loop waiting for resume or close
    | Exited                        // returned after sending the completion signal
    | Ended                         // left the outer loop without signalling
    | Crashed                       // panicked (an `unwrap` or a `panic!`)

  predicate Running(p: WorkerPhase)
  {
    !(p.NotStarted? || p.Exited? || p.Ended? || p.Crashed?)
  }

  /** Steps left before the thread terminates once `avaliable` is false. */
  function Rank(p: WorkerPhase): nat
  {
    match p
    case NotStarted => 0
    case Exited => 0
    case Ended => 0
    case Crashed => 0
    case OuterTop => 1
    case EndWait => 1
    case Finishing => 2
    case NextPacket => 3
    case InnerTop(_) => 4
    case Decoding(_, _, _) => 4
    case Writing(_, _, _, _, _, _) => 5
    case WaitPlaying(_) => 6
  }

  /** `FFmpegSource`. The producer and the consumer are the device's one ring; the
      `Option` handles of the seek sender and the suspend receiver are flags, the seek
      channel is the queue of requests not yet received, and the decode thread is its
      phase. `inputPosition` is where the demuxer was last positioned. */
  class FFmpegSource {
    const status: SourceStatus
    const queue: SampleRing
    var mediaInfo: MediaInfo
    var chunkSize: Usize
    var dynamicSize: Usize
    var seekSender: bool
    var seekRequests: seq<int>
    var suspendReceiver: bool
    var completionSent: bool
    var phase: WorkerPhase
    var streamIndex: nat
    var inputPosition: int

    ghost predicate Valid()
      reads this, status, queue
    {
      && queue.Valid() && queue.capacity == BufferCapacity
      && mediaInfo.bitrate == 0
      && seekSender == suspendReceiver
      && (seekSender ==> !phase.NotStarted?)
      && (phase.Writing? ==>
            && ChunksFit(phase.chunks) && phase.next <= |phase.chunks|
            && (phase.resumed ==> phase.next < |phase.chunks|))
    }

    /** `FFmpegSource::new`: nothing opened, every flag clear, time 0, the given
        watermark and half of it as the chunk size. */
    constructor (queue: SampleRing, dynamicSize: Usize)
      requires queue.Valid() && queue.capacity == BufferCapacity
      ensures Valid() && fresh(status) && this.queue == queue
      ensures mediaInfo == DefaultMediaInfo
      ensures this.dynamicSize == dynamicSize && chunkSize == dynamicSize / 2
      ensures !seekSender && !suspendReceiver && seekRequests == [] && !completionSent
      ensures phase == NotStarted
      ensures !status.droppingFrames && !status.available && !status.playing
      ensures status.currentTime == 0 && !status.isEnd
    {
      status := new SourceStatus();
      this.queue := queue;
      mediaInfo := DefaultMediaInfo;
      chunkSize := dynamicSize / 2;
      this.dynamicSize := dynamicSize;
      seekSender := false;
      seekRequests := [];
      suspendReceiver := false;
      completionSent := false;
      phase := NotStarted;
      streamIndex := 0;
      inputPosition := 0;
    }

    /** `open`: each failure returns its error and leaves what was already filled in
        (the cover once the input opens, the duration once the decoder is set up).
        Success records the stream, creates both channels, starts the thread and marks
        the source available. */
    method Open(probe: MediaProbe) returns (r: Result<(), SourceError>)
      requires Valid() && phase.NotStarted?
      modifies this, status
      ensures Valid()
      ensures r.Ok? <==> probe.inputOpens && probe.audioStream.Some? && probe.codecContextOk
                          && probe.decoderOk && probe.parametersOk && probe.resamplerOk
      ensures !probe.inputOpens ==> r == Err(OpenMediaFileWithFFmpeg(OpenInputMessage)) && mediaInfo == old(mediaInfo)
      ensures probe.inputOpens ==> mediaInfo.cover == probe.cover
      ensures probe.inputOpens && probe.audioStream.None? ==> r == Err(OpenMediaFile(AudioStreamMessage))
      ensures probe.inputOpens && probe.audioStream.Some? && !probe.codecContextOk ==>
                r == Err(OpenMediaFileWithFFmpeg(CodecContextMessage))
      ensures probe.inputOpens && probe.audioStream.Some? && probe.codecContextOk && !probe.decoderOk ==>
                r == Err(OpenMediaFileWithFFmpeg(DecoderMessage))
      ensures probe.inputOpens && probe.audioStream.Some? && probe.codecContextOk && probe.decoderOk && !probe.parametersOk ==>
                r == Err(OpenMediaFileWithFFmpeg(CodecParametersMessage))
      ensures probe.inputOpens && probe.audioStream.Some? && probe.codecContextOk && probe.decoderOk && probe.parametersOk ==>
                mediaInfo.duration == probe.durationMs && (r.Ok? || r == Err(OpenMediaFileWithFFmpeg(ResamplerMessage)))
      ensures !(probe.inputOpens && probe.audioStream.Some? && probe.codecContextOk && probe.decoderOk && probe.parametersOk) ==>
                mediaInfo.duration == old(mediaInfo.duration)
      ensures r.Ok? ==> && status.available && seekSender && suspendReceiver && seekRequests == []
                        && phase == OuterTop && streamIndex == probe.audioStream.value && inputPosition == 0
      ensures r.Err? ==> && status.available == old(status.available) && phase == old(phase)
                         && seekSender == old(seekSender) && suspendReceiver == old(suspendReceiver)
      ensures status.playing == old(status.playing) && status.droppingFrames == old(status.droppingFrames)
      ensures status.isEnd == old(status.isEnd) && status.currentTime == old(status.currentTime)
      ensures chunkSize == old(chunkSize) && dynamicSize == old(dynamicSize)
    {
      if !probe.inputOpens {
        return Err(OpenMediaFileWithFFmpeg(OpenInputMessage));
      }
      mediaInfo := mediaInfo.(cover := probe.cover);
      if probe.audioStream.None? {
        return Err(OpenMediaFile(AudioStreamMessage));
      }
      var index := probe.audioStream.value;
      if !probe.codecContextOk {
        return Err(OpenMediaFileWithFFmpeg(CodecContextMessage));
      }
      if !probe.decoderOk {
        return Err(OpenMediaFileWithFFmpeg(DecoderMessage));
      }
      if !probe.parametersOk {
        return Err(OpenMediaFileWithFFmpeg(CodecParametersMessage));
      }
      mediaInfo := mediaInfo.(duration := probe.durationMs);
      if !probe.resamplerOk {
        return Err(OpenMediaFileWithFFmpeg(ResamplerMessage));
      }
      suspendReceiver := true;
      seekSender := true;
      seekRequests := [];
      completionSent := false;
      streamIndex := index;
      inputPosition := 0;
      phase := OuterTop;
      status.available := true;
      return Ok(());
    }

    /** `close`: marks the source unavailable, then (with a file open) waits until the
        thread has terminated, drops both channel ends and empties the ring. Without a
        suspend receiver it fails, after having cleared `avaliable`. */
    method Close() returns (r: Result<(), SourceError>)
      requires Valid()
      modifies this, status, queue
      ensures Valid()
      ensures !status.available
      ensures r.Err? <==> !old(suspendReceiver)
      ensures r.Err? ==> && r.error == CloseMediaFile(NoFileOpenedMessage)
                         && phase == old(phase) && queue.contents == old(queue.contents)
                         && seekSender == old(seekSender) && suspendReceiver == old(suspendReceiver)
                         && unchanged(this, queue)
                         && status.playing == old(status.playing) && status.droppingFrames == old(status.droppingFrames)
                         && status.isEnd == old(status.isEnd) && status.currentTime == old(status.currentTime)
      ensures r.Ok? ==> !Running(phase) && !seekSender && !suspendReceiver && queue.contents == []
      ensures mediaInfo == old(mediaInfo)
    {
      status.available := false;
      if !suspendReceiver {
        return Err(CloseMediaFile(NoFileOpenedMessage));
      }
      while Running(phase)
        invariant Valid() && !status.available && mediaInfo == old(mediaInfo)
        decreases Rank(phase)
      {
        match phase
        case OuterTop => WorkerOuterTop();
        case InnerTop(_) => WorkerInnerTop(false);
        case NextPacket => WorkerRead(None);
        case WaitPlaying(_) => WorkerWaitPlaying();
        case Decoding(_, _, _) => WorkerDecode();
        case Writing(_, _, _, _, _, _) => var _ := WorkerWrite();
        case Finishing => WorkerFinish();
        case EndWait => WorkerEndWait(false);
      }
      seekSender := false;
      suspendReceiver := false;
      Device.AudioDevice.ClearBuffer(queue);
      return Ok(());
    }

    /** `streaming`: only `playing` changes. */
    method Streaming() returns (r: Result<(), SourceError>)
      modifies status
      ensures r.Ok? && status.playing
      ensures status.available == old(status.available) && status.droppingFrames == old(status.droppingFrames)
      ensures status.isEnd == old(status.isEnd) && status.currentTime == old(status.currentTime)
    {
      status.playing := true;
      return Ok(());
    }

    /** `pause` of the source: only `playing` changes. */
    method Pause() returns (r: Result<(), SourceError>)
      modifies status
      ensures r.Ok? && !status.playing
      ensures status.available == old(status.available) && status.droppingFrames == old(status.droppingFrames)
      ensures status.isEnd == old(status.isEnd) && status.currentTime == old(status.currentTime)
    {
      status.playing := false;
      return Ok(());
    }

    /** `seek`: sends the time rescaled from milliseconds to `AV_TIME_BASE`
        (microseconds) and then sets `dropping_frames`. No sender (nothing opened) and
        a terminated thread (the receiving end gone) are errors that change nothing. */
    method Seek(timeMs: int) returns (r: Result<(), SourceError>)
      modifies this, status
      ensures !old(seekSender) ==> r == Err(SourceError.Seek(NoFileOpenedMessage))
      ensures old(seekSender) && !Running(phase) ==> r == Err(SendSeek(ThreadTerminatedMessage))
      ensures r.Ok? <==> old(seekSender) && Running(phase)
      ensures r.Ok? ==> seekRequests == old(seekRequests) + [timeMs * 1000] && status.droppingFrames
      ensures r.Err? ==> seekRequests == old(seekRequests) && status.droppingFrames == old(status.droppingFrames)
      ensures seekSender == old(seekSender) && suspendReceiver == old(suspendReceiver) && phase == old(phase)
      ensures mediaInfo == old(mediaInfo) && chunkSize == old(chunkSize) && dynamicSize == old(dynamicSize)
      ensures completionSent == old(completionSent) && inputPosition == old(inputPosition)
      ensures streamIndex == old(streamIndex)
      ensures status.available == old(status.available) && status.playing == old(status.playing)
      ensures status.isEnd == old(status.isEnd) && status.currentTime == old(status.currentTime)
    {
      var timeBase := timeMs * 1000;
      if !seekSender {
        return Err(SourceError.Seek(NoFileOpenedMessage));
      }
      if !Running(phase) {
        return Err(SendSeek(ThreadTerminatedMessage));
      }
      seekRequests := seekRequests + [timeBase];
      status.droppingFrames := true;
      return Ok(());
    }

    /** `clear_buffer` of the source: only `dropping_frames` is set; the ring itself is
        left to the thread. */
    method ClearBuffer()
      modifies status
      ensures status.droppingFrames
      ensures status.available == old(status.available) && status.playing == old(status.playing)
      ensures status.isEnd == old(status.isEnd) && status.currentTime == old(status.currentTime)
    {
      status.droppingFrames := true;
    }

    function GetDuration(): int
      reads this
    {
      mediaInfo.duration
    }

    /** `get_bitrate`: nothing in the source fills the bitrate in, so it stays at the
        default 0. */
    function GetBitrate(): (b: int)
      reads this, status, queue
      requires Valid()
      ensures b == 0
    {
      mediaInfo.bitrate
    }

    function GetCurrentTime(): int
      reads status
    {
      status.currentTime
    }

    function IsEnd(): bool
      reads status
    {
      status.isEnd
    }

    function IsStreaming(): bool
      reads status
    {
      status.playing
    }

    function GetMediaInfo(): MediaInfo
      reads this
    {
      mediaInfo
    }

    /** `set_buffer_chunk_size`; the thread reads it again at each packet. */
    method SetBufferChunkSize(size: Usize)
      modifies this
      ensures chunkSize == size && dynamicSize == old(dynamicSize)
      ensures phase == old(phase) && mediaInfo == old(mediaInfo) && seekSender == old(seekSender)
      ensures suspendReceiver == old(suspendReceiver) && seekRequests == old(seekRequests)
      ensures completionSent == old(completionSent) && streamIndex == old(streamIndex) && inputPosition == old(inputPosition)
    {
      chunkSize := size;
    }

    /** `set_dynamic_device_buffer_size`: the watermark, and half of it as the chunk
        size. */
    method SetDynamicDeviceBufferSize(size: Usize)
      modifies this
      ensures dynamicSize == size && chunkSize == size / 2
      ensures phase == old(phase) && mediaInfo == old(mediaInfo) && seekSender == old(seekSender)
      ensures suspendReceiver == old(suspendReceiver) && seekRequests == old(seekRequests)
      ensures completionSent == old(completionSent) && streamIndex == old(streamIndex) && inputPosition == old(inputPosition)
    {
      dynamicSize := size;
      chunkSize := size / 2;
    }

    // -------------------------------------------------------------------------------
    // The decode thread, one step at a time

    /** Head of the outer loop: leave it when unavailable, else enter the seekable loop
        with no seek pending. */
    method WorkerOuterTop()
      requires Valid() && phase.OuterTop?
      modifies this
      ensures Valid() && Unchanged()
      ensures !status.available ==> phase == Ended
      ensures status.available ==> phase == InnerTop(None)
      ensures seekRequests == old(seekRequests) && completionSent == old(completionSent) && inputPosition == old(inputPosition)
    {
      if !status.available {
        phase := Ended;
      } else {
        phase := InnerTop(None);
      }
    }

    /** The handles and settings no thread step changes. */
    twostate predicate Unchanged()
      reads this, status
    {
      && mediaInfo == old(mediaInfo) && chunkSize == old(chunkSize) && dynamicSize == old(dynamicSize)
      && seekSender == old(seekSender) && suspendReceiver == old(suspendReceiver) && streamIndex == old(streamIndex)
      && status.available == old(status.available)
    }

    /** What `pause`, `clear_buffer` and `seek` leave alone: the handles and settings,
        the thread's phase and input position, and every status flag but `playing`
        and `dropping_frames`. */
    twostate predicate SessionKept()
      reads this, status
    {
      && Unchanged() && phase == old(phase)
      && completionSent == old(completionSent) && inputPosition == old(inputPosition)
      && status.isEnd == old(status.isEnd) && status.currentTime == old(status.currentTime)
    }

    /** Head of the seekable loop. When available and a seek is pending, the demuxer is
        repositioned and, if that succeeds (`seekOk`), the ring is cleared; a failed
        seek is only reported. Either way the seek is consumed and packets are read. */
    method WorkerInnerTop(seekOk: bool)
      requires Valid() && phase.InnerTop?
      modifies this, queue
      ensures Valid() && Unchanged()
      ensures status.playing == old(status.playing) && status.droppingFrames == old(status.droppingFrames)
      ensures !status.available ==> phase == Finishing && queue.contents == old(queue.contents)
      ensures status.available ==> phase == NextPacket
      ensures status.available && old(phase).seek.Some? && seekOk ==>
                inputPosition == old(phase).seek.value && queue.contents == []
      ensures !(status.available && old(phase).seek.Some? && seekOk) ==>
                inputPosition == old(inputPosition) && queue.contents == old(queue.contents)
      ensures seekRequests == old(seekRequests) && completionSent == old(completionSent)
    {
      if !status.available {
        phase := Finishing;
        return;
      }
      match phase.seek {
        case Some(t) =>
          if seekOk {
            inputPosition := t;
            Device.AudioDevice.ClearBuffer(queue);
          }
        case None =>
      }
      phase := NextPacket;
    }

    /** One turn of the packet loop: `next` is what the demuxer yields (None at the end
        of the input). A packet clears `dropping_frames`; a received seek request ends
        the packet loop. */
    method WorkerRead(next: Option<Packet>)
      requires Valid() && phase.NextPacket?
      modifies this, status
      ensures Valid() && Unchanged()
      ensures status.playing == old(status.playing) && status.isEnd == old(status.isEnd)
      ensures status.currentTime == old(status.currentTime)
      ensures next.None? || !status.available ==>
                phase == Finishing && seekRequests == old(seekRequests) && status.droppingFrames == old(status.droppingFrames)
      ensures next.Some? && status.available ==> !status.droppingFrames
      ensures next.Some? && status.available && old(seekRequests) != [] ==>
                phase == InnerTop(Some(old(seekRequests)[0])) && seekRequests == old(seekRequests)[1..]
      ensures next.Some? && status.available && old(seekRequests) == [] ==>
                phase == WaitPlaying(next.value) && seekRequests == []
      ensures completionSent == old(completionSent) && inputPosition == old(inputPosition)
    {
      if next.None? || !status.available {
        phase := Finishing;
        return;
      }
      status.droppingFrames := false;
      if seekRequests != [] {
        var t := seekRequests[0];
        seekRequests := seekRequests[1..];
        phase := InnerTop(Some(t));
      } else {
        phase := WaitPlaying(next.value);
      }
    }

    /** `while !playing` and what follows it for the packet read: paused and available,
        the thread keeps waiting; otherwise a packet of the audio stream updates the
        current time from its time stamp and goes to the decoder, whose refusal is a
        panic. The chunk size and the watermark are read once here for the packet. */
    method WorkerWaitPlaying()
      requires Valid() && phase.WaitPlaying?
      modifies this, status
      ensures Valid() && Unchanged()
      ensures status.playing == old(status.playing) && status.droppingFrames == old(status.droppingFrames)
      ensures status.isEnd == old(status.isEnd)
      ensures var p := old(phase).packet;
              && (!status.playing && status.available ==> phase == old(phase) && status.currentTime == old(status.currentTime))
              && (status.playing || !status.available ==>
                    && (p.stream != streamIndex ==> phase == NextPacket && status.currentTime == old(status.currentTime))
                    && (p.stream == streamIndex ==>
                          && status.currentTime == (if p.ptsMs.Some? then p.ptsMs.value else old(status.currentTime))
                          && phase == (if p.sendOk then Decoding(p.output, chunkSize, dynamicSize) else Crashed)))
      ensures !status.available ==> Rank(phase) < Rank(old(phase))
      ensures seekRequests == old(seekRequests) && completionSent == old(completionSent) && inputPosition == old(inputPosition)
    {
      var p := phase.packet;
      if !status.playing && status.available {
        return;
      }
      if p.stream != streamIndex {
        phase := NextPacket;
        return;
      }
      if p.ptsMs.Some? {
        status.currentTime := p.ptsMs.value;
      }
      if !p.sendOk {
        phase := Crashed;
        return;
      }
      phase := Decoding(p.output, chunkSize, dynamicSize);
    }

    /** `decode_to_buffer` at its next output: back to the packet loop when there is none
        left or the source is unavailable; a resampler error, a planar frame, too many
        channels or a zero chunk size panic; otherwise the frame's samples are chunked
        for writing. */
    method WorkerDecode()
      requires Valid() && phase.Decoding?
      modifies this
      ensures Valid() && Unchanged()
      ensures var d := old(phase);
              && (d.output == [] || !status.available ==> phase == NextPacket)
              && (d.output != [] && status.available ==>
                    match d.output[0]
                    case ResampleFails => phase == Crashed
                    case Frame(f) =>
                      match FrameToSlice(f)
                      case None => phase == Crashed
                      case Some(slice) =>
                        phase == if d.chunkSize == 0 then Crashed
                                 else Writing(d.output[1..], Chunks(slice, d.chunkSize), 0, false, d.chunkSize, d.dyn))
      ensures !status.available ==> Rank(phase) < Rank(old(phase))
      ensures seekRequests == old(seekRequests) && completionSent == old(completionSent) && inputPosition == old(inputPosition)
    {
      var d := phase;
      if d.output == [] || !status.available {
        phase := NextPacket;
        return;
      }
      match d.output[0] {
        case ResampleFails =>
          phase := Crashed;
        case Frame(f) =>
          match FrameToSlice(f) {
            case None =>
              phase := Crashed;
            case Some(slice) =>
              if d.chunkSize == 0 {
                phase := Crashed;
              } else {
                phase := Writing(d.output[1..], Chunks(slice, d.chunkSize), 0, false, d.chunkSize, d.dyn);
              }
          }
      }
    }

    /** `blocking_write_buffer` for the head output until it returns or sleeps. A sleep
        keeps the phase, to be resumed at the chunk it waits for; a return goes on with
        the next output. The ring never grows past the watermark read for the packet,
        or past where it already was. */
    method WorkerWrite() returns (outcome: WriteOutcome)
      requires Valid() && phase.Writing?
      modifies queue, this
      ensures Valid() && Unchanged()
      ensures var w := old(phase);
              && w.next <= Reached(outcome, |w.chunks|) <= |w.chunks|
              && old(queue.contents) <= queue.contents
              && |queue.contents| <= Max(|old(queue.contents)|, w.dyn)
              && (w.dyn <= queue.capacity ==>
                    queue.contents == old(queue.contents) + Flatten(w.chunks[w.next..Reached(outcome, |w.chunks|)]))
              && (outcome.Waiting? ==> phase == w.(next := outcome.at, resumed := true))
              && (!outcome.Waiting? ==> phase == Decoding(w.output, w.chunkSize, w.dyn))
              && (status.droppingFrames || !status.playing ==> queue.contents == old(queue.contents))
      ensures outcome.Waiting? ==> status.available && !status.droppingFrames
      ensures !status.available ==> Rank(phase) < Rank(old(phase))
      ensures seekRequests == old(seekRequests) && completionSent == old(completionSent) && inputPosition == old(inputPosition)
    {
      var w := phase;
      outcome := WriteChunks(status, w.dyn, w.chunks, w.next, w.resumed, queue);
      if outcome.Waiting? {
        phase := w.(next := outcome.at, resumed := true);
      } else {
        phase := Decoding(w.output, w.chunkSize, w.dyn);
      }
    }

    /** End of playback: not playing, time 0, `is_end` set. */
    method WorkerFinish()
      requires Valid() && phase.Finishing?
      modifies this, status
      ensures Valid() && Unchanged()
      ensures !status.playing && status.currentTime == 0 && status.isEnd && phase == EndWait
      ensures status.droppingFrames == old(status.droppingFrames)
      ensures seekRequests == old(seekRequests) && completionSent == old(completionSent) && inputPosition == old(inputPosition)
    {
      status.playing := false;
      status.currentTime := 0;
      status.isEnd := true;
      phase := EndWait;
    }

    /** The loop after the end of playback. A closed source gets the completion signal
        and the thread returns; a resumed one clears `is_end`, rewinds the input to 0
        (`rewindOk` is whether that succeeds; its failure is a panic) and starts over;
        otherwise it keeps waiting. */
    method WorkerEndWait(rewindOk: bool)
      requires Valid() && phase.EndWait?
      modifies this, status
      ensures Valid() && Unchanged()
      ensures !status.available ==> completionSent && phase == Exited && status.isEnd == old(status.isEnd)
      ensures status.available && status.playing ==>
                && !status.isEnd && completionSent == old(completionSent)
                && (rewindOk ==> inputPosition == 0 && phase == OuterTop)
                && (!rewindOk ==> phase == Crashed && inputPosition == old(inputPosition))
      ensures status.available && !status.playing ==>
                phase == EndWait && status.isEnd == old(status.isEnd) && completionSent == old(completionSent)
      ensures !(status.available && status.playing && rewindOk) ==> inputPosition == old(inputPosition)
      ensures status.playing == old(status.playing) && status.droppingFrames == old(status.droppingFrames)
      ensures status.currentTime == old(status.currentTime) && seekRequests == old(seekRequests)
    {
      if !status.available {
        completionSent := true;
        phase := Exited;
      } else if status.playing {
        status.isEnd := false;
        if rewindOk {
          inputPosition := 0;
          phase := OuterTop;
        } else {
          phase := Crashed;
        }
      }
    }
  }
}
