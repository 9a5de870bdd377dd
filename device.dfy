/**
 * The output device of src/audio/device.rs: the real-time callback that turns queued
 * frames into the device's native samples, and the control state the callback reads.
 * The hardware layer (cpal) is not part of this model: what it reports while a stream
 * is built is a `DeviceProbe`, and whether `Stream::play` succeeds is a parameter.
 */
module Device {
  import opened Common
  import opened Sample
  import opened Ring

  /** `BUFFER_CAPACITY`: frames in the ring created by `AudioDevice::new`. */
  const BufferCapacity: nat := 64000

  /** `f32::clamp`. */
  function Clamp(v: real, lo: real, hi: real): (r: real)
    requires lo <= hi
    ensures lo <= r <= hi
    ensures lo <= v <= hi ==> r == v
    ensures v < lo ==> r == lo
    ensures hi < v ==> r == hi
  {
    if v < lo then lo else if v > hi then hi else v
  }

  /** The per-channel processing of a popped frame: scale by the amplitude, clamp to [-1, 1]. */
  function Gain(volume: real): real -> real
  {
    v => Clamp(v * volume, -1.0, 1.0)
  }

  /** What one callback block reads from `AudioDeviceContext`. The amplitude is read once
      per block; the two flags are read per frame, and nothing in this model changes them
      during a block. */
  datatype Controls = Controls(playing: bool, mute: bool, volume: real)

  /** The frame handed to output frame `f` of a block: the f-th queued frame when the
      device is playing and the queue holds that many, otherwise nothing. */
  function PoppedAt(playing: bool, q: seq<AudioSample>, f: nat): (r: Option<AudioSample>)
    ensures r.Some? <==> playing && f < |q|
    ensures r.Some? ==> r.value == q[f]
  {
    if playing && f < |q| then Some(q[f]) else None
  }

  /** `zero_frame`: every slot is the native value of 0.0. */
  function Silence<T>(channels: nat, convert: real -> T): (r: seq<T>)
    ensures |r| == channels
  {
    seq(channels, _ => convert(0.0))
  }

  /** One complete output frame. */
  function FrameOut<T>(c: Controls, popped: Option<AudioSample>, channels: nat, convert: real -> T): (r: seq<T>)
    requires channels <= Slots
    ensures |r| == channels
  {
    if c.playing && !c.mute && popped.Some? then
      Converted(Processed(popped.value, Gain(c.volume)), channels, convert)
    else
      Silence(channels, convert)
  }

  /** The first `count` complete frames of a block, given the queue at its start. */
  function Rendered<T>(c: Controls, q: seq<AudioSample>, channels: nat, convert: real -> T, count: nat): seq<T>
    requires channels <= Slots
  {
    if count == 0 then []
    else Rendered(c, q, channels, convert, count - 1) + FrameOut(c, PoppedAt(c.playing, q, count - 1), channels, convert)
  }

  /** The queue after a block of `count` frames: one pop per frame while playing. */
  function QueueAfter(playing: bool, q: seq<AudioSample>, count: nat): seq<AudioSample>
  {
    if playing then q[Min(count, |q|)..] else q
  }

  lemma {:induction false} RenderedLength<T>(c: Controls, q: seq<AudioSample>, channels: nat, convert: real -> T, count: nat)
    requires channels <= Slots
    ensures |Rendered(c, q, channels, convert, count)| == count * channels
  {
    if count > 0 {
      RenderedLength(c, q, channels, convert, count - 1);
      assert (count - 1) * channels + channels == count * channels;
    }
  }

  /** Frame `f` of a block sits at slots `f*channels .. f*channels + channels`. */
  lemma {:induction false} RenderedFrame<T>(c: Controls, q: seq<AudioSample>, channels: nat, convert: real -> T, count: nat, f: nat)
    requires channels <= Slots && f < count
    ensures f * channels + channels <= |Rendered(c, q, channels, convert, count)|
    ensures Rendered(c, q, channels, convert, count)[f * channels .. f * channels + channels]
         == FrameOut(c, PoppedAt(c.playing, q, f), channels, convert)
  {
    RenderedLength(c, q, channels, convert, count);
    RenderedLength(c, q, channels, convert, count - 1);
    var prev := Rendered(c, q, channels, convert, count - 1);
    assert (count - 1) * channels + channels == count * channels;
    assert (f + 1) * channels == f * channels + channels;
    if f == count - 1 {
      assert Rendered(c, q, channels, convert, count)[f * channels..f * channels + channels]
          == (prev + FrameOut(c, PoppedAt(c.playing, q, count - 1), channels, convert))[|prev|..];
    } else {
      RenderedFrame(c, q, channels, convert, count - 1, f);
      MulMonotone(f + 1, count - 1, channels);
      assert Rendered(c, q, channels, convert, count)[f * channels..f * channels + channels]
          == prev[f * channels..f * channels + channels];
    }
  }

  /** While paused, or while muted, a block is silence in every complete frame. */
  lemma {:induction false} SilentUnlessPlayingUnmuted<T>(c: Controls, q: seq<AudioSample>, channels: nat, convert: real -> T, count: nat)
    requires channels <= Slots
    requires !c.playing || c.mute
    ensures Rendered(c, q, channels, convert, count) == Silence(count * channels, convert)
  {
    if count > 0 {
      SilentUnlessPlayingUnmuted(c, q, channels, convert, count - 1);
      assert (count - 1) * channels + channels == count * channels;
      assert Silence((count - 1) * channels, convert) + Silence(channels, convert) == Silence(count * channels, convert);
    }
  }

  /** A frame past the end of the queue (an underrun) is silence, and raises nothing. */
  lemma UnderrunIsSilent<T>(c: Controls, q: seq<AudioSample>, channels: nat, convert: real -> T, count: nat, f: nat)
    requires channels <= Slots && |q| <= f < count
    ensures f * channels + channels <= |Rendered(c, q, channels, convert, count)|
    ensures Rendered(c, q, channels, convert, count)[f * channels .. f * channels + channels] == Silence(channels, convert)
  {
    RenderedFrame(c, q, channels, convert, count, f);
  }

  /** Slot j of the frame written for a popped frame `s`. */
  lemma PlayedFrameSlot<T>(c: Controls, s: AudioSample, channels: nat, convert: real -> T, j: nat)
    requires channels <= Slots && j < channels && c.playing && !c.mute
    ensures FrameOut(c, Some(s), channels, convert)[j]
         == convert(if j < s.channels then Gain(c.volume)(s.data[j]) else s.data[j])
  {
    var p := Processed(s, Gain(c.volume));
    assert p.data[j] == if j < s.channels then Gain(c.volume)(s.data[j]) else s.data[j];
    assert FrameOut(c, Some(s), channels, convert) == Converted(p, channels, convert);
    assert Converted(p, channels, convert)[j] == convert(p.data[j]);
  }

  /** Playing and unmuted, slot j of frame f carries the f-th queued frame, scaled and
      clamped on its live channels and converted to the native format. */
  lemma PlayedSlot<T>(c: Controls, q: seq<AudioSample>, channels: nat, convert: real -> T, count: nat, f: nat, j: nat)
    requires channels <= Slots && f < count && f < |q| && j < channels
    requires c.playing && !c.mute
    ensures f * channels + j < |Rendered(c, q, channels, convert, count)|
    ensures Rendered(c, q, channels, convert, count)[f * channels + j]
         == convert(if j < q[f].channels then Gain(c.volume)(q[f].data[j]) else q[f].data[j])
  {
    RenderedFrame(c, q, channels, convert, count, f);
    PlayedFrameSlot(c, q[f], channels, convert, j);
    var r := Rendered(c, q, channels, convert, count);
    MulMonotone(0, f, channels);
    var lo: nat := f * channels;
    assert PoppedAt(c.playing, q, f) == Some(q[f]);
    SliceIndex(r, lo, lo + channels, j);
  }

  lemma SliceIndex<T>(s: seq<T>, lo: nat, hi: nat, j: nat)
    requires lo <= hi <= |s| && j < hi - lo
    ensures lo + j < |s| && s[lo..hi][j] == s[lo + j]
  {
  }

  /** A block pops exactly min(occupancy, frames) frames while playing (muted or not), and
      none while paused. */
  lemma QueueAfterLength(playing: bool, q: seq<AudioSample>, count: nat)
    ensures |QueueAfter(playing, q, count)| == if playing then |q| - Min(count, |q|) else |q|
    ensures playing ==> QueueAfter(playing, q, count) == q[Min(count, |q|)..]
    ensures !playing ==> QueueAfter(playing, q, count) == q
  {
  }

  /** Writes the native value of 0.0 into `dst[start..start + len]`. */
  method ZeroFrame<T>(dst: array<T>, start: nat, len: nat, convert: real -> T)
    requires start + len <= dst.Length
    modifies dst
    ensures dst[..start] == old(dst[..start])
    ensures dst[start..start + len] == Silence(len, convert)
    ensures dst[start + len..] == old(dst[start + len..])
  {
    var i := 0;
    while i < len
      invariant 0 <= i <= len
      invariant forall k :: 0 <= k < start ==> dst[k] == old(dst[k])
      invariant forall k :: start <= k < start + i ==> dst[k] == convert(0.0)
      invariant forall k :: start + i <= k < dst.Length ==> dst[k] == old(dst[k])
    {
      dst[start + i] := convert(0.0);
      i := i + 1;
    }
  }

  /** Splicing one frame into a partly written block. */
  lemma SpliceFrame<T>(before: seq<T>, after: seq<T>, d0: seq<T>, done: seq<T>, frame: seq<T>, base: nat)
    requires base + |frame| <= |before| == |after| == |d0|
    requires before[..base] == done && before[base..] == d0[base..]
    requires after[..base] == before[..base]
    requires after[base..base + |frame|] == frame
    requires after[base + |frame|..] == before[base + |frame|..]
    ensures after[..base + |frame|] == done + frame
    ensures after[base + |frame|..] == d0[base + |frame|..]
  {
    assert after[..base + |frame|] == after[..base] + after[base..base + |frame|];
    assert before[base + |frame|..] == before[base..][|frame|..];
    assert d0[base + |frame|..] == d0[base..][|frame|..];
  }

  /** Writes one output frame for `popped` into `dst[base..base + channels]`: the
      processed, converted frame while playing and unmuted, silence otherwise. */
  method WriteFrame<T>(dst: array<T>, base: nat, channels: nat, c: Controls, popped: Option<AudioSample>, convert: real -> T)
    requires channels <= Slots && base + channels <= dst.Length
    modifies dst
    ensures dst[..base] == old(dst[..base])
    ensures dst[base..base + channels] == FrameOut(c, popped, channels, convert)
    ensures dst[base + channels..] == old(dst[base + channels..])
  {
    if c.playing {
      if c.mute {
        ZeroFrame(dst, base, channels, convert);
      } else {
        match popped {
          case Some(s) =>
            var scaled := ApplyProcess(s, Gain(c.volume));
            WriteSliceConvert(scaled, dst, base, channels, convert);
          case None =>
            ZeroFrame(dst, base, channels, convert);
        }
      }
    } else {
      ZeroFrame(dst, base, channels, convert);
    }
  }

  /** One iteration of `audio_output_stream`: frame f is popped (while playing) and
      written at `base`, extending the rendered prefix by one frame. */
  method RenderNext<T>(data: array<T>, base: nat, c: Controls, consumer: SampleRing, channels: nat, convert: real -> T,
                       ghost q0: seq<AudioSample>, ghost d0: seq<T>, ghost f: nat)
    requires channels <= Slots && base + channels <= data.Length == |d0|
    requires consumer.Valid() && consumer.contents == QueueAfter(c.playing, q0, f)
    requires data[..base] == Rendered(c, q0, channels, convert, f) && data[base..] == d0[base..]
    modifies data, consumer
    ensures consumer.Valid() && consumer.contents == QueueAfter(c.playing, q0, f + 1)
    ensures data[..base + channels] == Rendered(c, q0, channels, convert, f + 1)
    ensures data[base + channels..] == d0[base + channels..]
  {
    ghost var before := data[..];
    var popped: Option<AudioSample> := None;
    if c.playing {
      popped := consumer.Pop();
    }
    assert popped == PoppedAt(c.playing, q0, f);
    WriteFrame(data, base, channels, c, popped, convert);
    SpliceFrame(before, data[..], d0, Rendered(c, q0, channels, convert, f), FrameOut(c, popped, channels, convert), base);
  }

  /** `audio_output_stream`: fills every complete frame of `data` (`data.Length / channels`
      of them; a trailing partial frame is left alone) and pops the queue once per frame
      while playing, muted or not. The source panics on a zero channel count
      (`chunks_exact`) and when a popped frame is written into more than eight slots. */
  method OutputStream<T>(data: array<T>, context: AudioDeviceContext, consumer: SampleRing, channels: nat, convert: real -> T)
    requires 1 <= channels <= Slots
    requires consumer.Valid()
    modifies data, consumer
    ensures consumer.Valid()
    ensures var c := Controls(context.playing, context.mute, context.volumeAmplitude);
            var frames := data.Length / channels;
            && data[..] == Rendered(c, old(consumer.contents), channels, convert, frames) + old(data[..])[frames * channels..]
            && consumer.contents == QueueAfter(context.playing, old(consumer.contents), frames)
  {
    var c := Controls(context.playing, context.mute, context.volumeAmplitude);
    var frames := data.Length / channels;
    DivMul(data.Length, channels);
    ghost var q0 := consumer.contents;
    ghost var d0 := data[..];
    var f := 0;
    var base := 0;
    while f < frames
      invariant 0 <= f <= frames && base == f * channels && base <= frames * channels <= data.Length
      invariant consumer.Valid()
      invariant consumer.contents == QueueAfter(c.playing, q0, f)
      invariant data[..base] == Rendered(c, q0, channels, convert, f)
      invariant data[base..] == d0[base..]
    {
      MulSucc(f, channels);
      MulMonotone(f + 1, frames, channels);
      RenderNext(data, base, c, consumer, channels, convert, q0, d0, f);
      f := f + 1;
      base := base + channels;
    }
    assert data[..] == data[..base] + data[base..];
    assert data[..] == Rendered(c, q0, channels, convert, frames) + d0[frames * channels..];
  }

  /** `AudioDeviceContext`: the flags and the amplitude shared with the callback. */
  class AudioDeviceContext {
    var mute: bool
    var volumeAmplitude: real
    var playing: bool

    constructor ()
      ensures !mute && volumeAmplitude == 0.0 && playing
    {
      mute := false;
      volumeAmplitude := 0.0;
      playing := true;
    }
  }

  datatype SampleFormat = I16 | U16 | F32

  type Uint32 = n: nat | n < 0x1_0000_0000
  type Uint16 = n: nat | n < 0x1_0000

  /** `DeviceSampleFormat`: negotiated once per successful initialisation. */
  datatype DeviceSampleFormat = DeviceSampleFormat(sampleRate: Uint32, sampleFormat: SampleFormat, channelCount: Uint16)

  datatype DeviceError =
    | InitDevice(message: string)
    | DeviceConfig(message: string)
    | BuildStream
    | OpenDevice(message: string)
    | PlayStream

  const NoOutputDeviceMessage: string := "failed to get default output device"
  const ConfigQueryMessage: string := "failed to get supported output configs"
  const NoSupportedFormatMessage: string := "the audio device does not have a supported output format"
  const NotAvailableMessage: string := "the audio device is not available"
  const NotInitializedMessage: string := "audio device has not been initialized"

  /** What the hardware layer reports during `init_default_device`. */
  datatype DeviceProbe =
    | NoOutputDevice                        // no default output device
    | ConfigQueryFails                      // the supported-configuration query fails
    | NoSupportedConfig                     // the query yields no configuration
    | BuildFails(format: DeviceSampleFormat)  // a format is chosen, building the stream fails
    | StreamReady(format: DeviceSampleFormat) // the stream is built

  /** `AudioDevice`. The fields `device` and `output_stream` are set together, so one flag
      stands for both. The ring is created here and shared with every source. */
  class AudioDevice {
    var available: bool
    var hasStream: bool
    var sampleFormat: Option<DeviceSampleFormat>
    const queue: SampleRing
    const context: AudioDeviceContext

    ghost predicate Valid()
      reads this, queue
    {
      && queue.Valid() && queue.capacity == BufferCapacity
      && (available ==> hasStream)
      && (hasStream ==> sampleFormat.Some?)
    }

    /** `AudioDevice::new`: unavailable, no stream, an empty ring of `BUFFER_CAPACITY`,
        unmuted, amplitude 0 and playing. */
    constructor ()
      ensures Valid() && fresh(queue) && fresh(context)
      ensures !available && !hasStream && sampleFormat == None
      ensures queue.contents == []
      ensures !context.mute && context.volumeAmplitude == 0.0 && context.playing
    {
      available := false;
      hasStream := false;
      sampleFormat := None;
      queue := new SampleRing(BufferCapacity);
      context := new AudioDeviceContext();
    }

    /** `init_default_device`. The chosen format is recorded before the stream is built,
        so a failed build still leaves it; only a built stream makes the device available. */
    method InitDefaultDevice(probe: DeviceProbe) returns (r: Result<(), DeviceError>)
      requires Valid()
      modifies this
      ensures Valid()
      ensures r.Ok? <==> probe.StreamReady?
      ensures probe.NoOutputDevice? ==> r == Err(InitDevice(NoOutputDeviceMessage))
      ensures probe.ConfigQueryFails? ==> r == Err(DeviceConfig(ConfigQueryMessage))
      ensures probe.NoSupportedConfig? ==> r == Err(InitDevice(NoSupportedFormatMessage))
      ensures probe.BuildFails? ==> r == Err(BuildStream)
      ensures (probe.BuildFails? || probe.StreamReady?) ==> sampleFormat == Some(probe.format)
      ensures !(probe.BuildFails? || probe.StreamReady?) ==> sampleFormat == old(sampleFormat)
      ensures probe.StreamReady? ==> available && hasStream
      ensures !probe.StreamReady? ==> available == old(available) && hasStream == old(hasStream)
    {
      match probe
      case NoOutputDevice =>
        r := Err(InitDevice(NoOutputDeviceMessage));
      case ConfigQueryFails =>
        r := Err(DeviceConfig(ConfigQueryMessage));
      case NoSupportedConfig =>
        r := Err(InitDevice(NoSupportedFormatMessage));
      case BuildFails(format) =>
        sampleFormat := Some(format);
        r := Err(BuildStream);
      case StreamReady(format) =>
        sampleFormat := Some(format);
        hasStream := true;
        available := true;
        r := Ok(());
    }

    /** The stream's error callback: the device is marked unavailable. */
    method OnStreamError()
      requires Valid()
      modifies this
      ensures Valid() && !available
      ensures hasStream == old(hasStream) && sampleFormat == old(sampleFormat)
    {
      available := false;
    }

    /** `open`: starts the stream; `playOk` is whether the hardware layer's `play` succeeds. */
    method Open(playOk: bool) returns (r: Result<(), DeviceError>)
      ensures r.Ok? <==> available && hasStream && playOk
      ensures !available ==> r == Err(OpenDevice(NotAvailableMessage))
      ensures available && !hasStream ==> r == Err(OpenDevice(NotInitializedMessage))
      ensures available && hasStream && !playOk ==> r == Err(PlayStream)
    {
      if !available {
        return Err(OpenDevice(NotAvailableMessage));
      }
      if !hasStream {
        return Err(OpenDevice(NotInitializedMessage));
      }
      if !playOk {
        return Err(PlayStream);
      }
      return Ok(());
    }

    /** `pause`: only `context.playing` changes; the stream keeps running. */
    method Pause()
      modifies context
      ensures !context.playing
      ensures context.mute == old(context.mute) && context.volumeAmplitude == old(context.volumeAmplitude)
    {
      context.playing := false;
    }

    /** `resume`. */
    method Resume()
      modifies context
      ensures context.playing
      ensures context.mute == old(context.mute) && context.volumeAmplitude == old(context.volumeAmplitude)
    {
      context.playing := true;
    }

    /** `set_volume`: 0 dB is exactly unity gain, anything else goes through the curve. */
    method SetVolume(dbGain: real, dbToAmplitude: real -> real)
      modifies context
      ensures context.volumeAmplitude == (if dbGain == 0.0 then 1.0 else dbToAmplitude(dbGain))
      ensures context.mute == old(context.mute) && context.playing == old(context.playing)
    {
      context.volumeAmplitude := if dbGain == 0.0 then 1.0 else dbToAmplitude(dbGain);
    }

    /** `set_mute`. */
    method SetMute(mute: bool)
      modifies context
      ensures context.mute == mute
      ensures context.volumeAmplitude == old(context.volumeAmplitude) && context.playing == old(context.playing)
    {
      context.mute := mute;
    }

    /** `is_available`. */
    function IsAvailable(): bool
      reads this
    {
      available
    }

    /** `clear_output_buffer`: discards `BUFFER_CAPACITY` frames, which empties the ring. */
    method ClearOutputBuffer()
      requires Valid()
      modifies queue
      ensures Valid() && queue.contents == []
    {
      ClearBuffer(queue);
    }

    /** `clear_buffer` on any consumer: discards up to `BUFFER_CAPACITY` of the oldest
        frames, so a ring no larger than that ends empty. */
    static method ClearBuffer(consumer: SampleRing)
      requires consumer.Valid()
      modifies consumer
      ensures consumer.Valid()
      ensures consumer.contents == old(consumer.contents)[Min(BufferCapacity, |old(consumer.contents)|)..]
      ensures consumer.capacity <= BufferCapacity ==> consumer.contents == []
    {
      var _ := consumer.Discard(BufferCapacity);
    }
  }
}
