# YakoPlayer core, modelled in Dafny

This project models the playback core of YakoPlayer, a small audio player written in Rust:

- the eight-slot multichannel frame `AudioSample` (src/audio/sample.rs);
- the bounded frame ring shared by the decoder and the output callback, and the callback
  `audio_output_stream` that turns queued frames into device samples (src/audio/device.rs);
- the audio device handle `AudioDevice` with its shared `AudioDeviceContext` flags;
- the decode side of `FFmpegSource` (src/audio/source.rs): chunking of decoded frames, the
  watermark admission test of `blocking_write_buffer`, de-interleaving of packed PCM, the
  `FFmpegSourceStatus` flags, the `AudioSource` operations, and the decode thread taken apart
  into the steps it performs between two waits;
- the `YakoPlayer` facade (src/player.rs) over an optional device and an optional source.

Samples are `real`; only multiplication and clamping are applied to them. ffmpeg and cpal
are replaced by what they report. Opening a file reports a `MediaProbe`. Bringing up the
default output device reports a `DeviceProbe`. The demuxer yields `Packet`s, each carrying
the resampled frames that decoding it produces. The volume curve of src/audio/volume.rs is a
pair of functions supplied with the player (`GainCurve`).

Files, one module each:

| file | module | models |
|---|---|---|
| common.dfy | Common | `Option`, `Result`, `Min`, `Max`, three arithmetic helper lemmas |
| sample.dfy | Sample | `AudioSample` |
| ring.dfy | Ring | the `ringbuf` ring buffer as a FIFO with a fixed capacity |
| volume.dfy | Volume | `volume_level_to_db`, with its formula left abstract |
| device.dfy | Device | `audio_output_stream`, `AudioDeviceContext`, `AudioDevice` |
| source.dfy | Source | `FFmpegSourceStatus`, `blocking_write_buffer`, `ffmpeg_frame_to_slice`, `FFmpegSource`, the decode thread |
| player.dfy | Player | `YakoPlayer` |

The output callback is specified by the function `Rendered`, which gives the samples a block
receives, and by `QueueAfter`, which gives the ring after the block. The method
`OutputStream` works in place on the output array and the ring, and is proved equal to
those two functions. The lemmas beside them state what the callback promises:
- silence while paused or muted;
- silence on underrun;
- one pop per frame while playing;
- the scaled and clamped value in every slot.

The decode thread is a phase field of `FFmpegSource` (`WorkerPhase`). Each `Worker…` method
runs one step, up to the next point where the thread would sleep, block or change phase.
`Close` drives these steps to termination. It uses the fact that an unavailable source
makes every step lower the phase's rank.

## Model

| member | source | states |
|---|---|---|
| Sample.OfValues | src/audio/sample.rs:11-16 | The frame built from at most 8 values has one channel per value, its first slots equal to the values, and the other slots at the default 0.0. |
| Sample.Processed | src/audio/sample.rs:30-35 | Processing keeps the channel count. |
| Sample.FromSlice | src/audio/sample.rs:11-16 | The slot-copying loop yields `OfValues(values)`: count, copied slots, zeros after. More than 8 values is excluded, because the source panics on the slice index. |
| Sample.ApplyProcess | src/audio/sample.rs:30-35 | The loop yields `Processed`: same count, `f` applied to each live slot, dead slots unchanged. |
| Sample.WriteSlice | src/audio/sample.rs:19-21 | The destination (at most 8 long) becomes the first `dst.Length` slots. |
| Sample.Converted | src/audio/sample.rs:24-27 | What is written into `len` slots has length `len`. |
| Sample.WriteSliceConvert | src/audio/sample.rs:24-27 | The sub-slice gets `convert(data[i])` in slot i, and everything outside it is unchanged. |
| Sample.Channels | src/audio/sample.rs:38-40 | The channel count is at most 8. |
| Sample.Ch | src/audio/sample.rs:42-72 | `chn()` reads slot n, live or padding. Its value for a built frame is stated by `ChOfValues`. |
| Sample.ChOfValues | src/audio/sample.rs:42-72 | `chn()` of a built frame is the n-th value, or 0.0 past the values. |
| Sample.FromSliceThenWriteSlice | src/audio/sample.rs:11-21 | `from_slice` followed by `write_slice` into a slice of the same length gives the values back. |
| Sample.OfValuesRoundTrip | src/audio/sample.rs:11-21 | The live slots of a built frame are exactly the values it was built from. |
| Sample.ProcessedOfValues | src/audio/sample.rs:11-35 | Processing a built frame is building from the processed values: the dead slots stay 0.0. |
| Ring.SampleRing.constructor | src/audio/device.rs:134-135 | A new ring is empty and has the given capacity. |
| Ring.SampleRing.Remaining | src/audio/source.rs:174 | Free slots plus occupancy equal the capacity. |
| Ring.SampleRing.PushSlice | src/audio/source.rs:188 | Appends the first `min(len, remaining)` elements, and no others. |
| Ring.SampleRing.Pop | src/audio/device.rs:71 | The oldest frame is removed and returned; an empty ring gives None and stays empty. |
| Ring.SampleRing.Discard | src/audio/device.rs:260 | Drops `min(n, occupancy)` of the oldest frames and keeps the rest in order. |
| Volume.LevelToDb | src/audio/volume.rs:22-30 | Level 1 is exactly 0 dB; every level maps to at most 0 dB; a non-positive formula value is passed through. |
| Device.Clamp | src/audio/device.rs:65 | The result lies in `[lo, hi]`, equals `v` inside it, and equals the nearer bound outside it. |
| Device.PoppedAt | src/audio/device.rs:69-71 | Frame f gets a popped frame exactly when playing and f is below occupancy, and that frame is the f-th queued one. |
| Device.Silence | src/audio/device.rs:57-61 | A silent run has the requested length. |
| Device.FrameOut | src/audio/device.rs:63-86 | Every output frame has exactly `channels` samples. |
| Device.Rendered | src/audio/device.rs:69-86 | The output of the first `count` frames: each frame's `FrameOut` for the k-th pop decision, in order. Its length and frames are stated by `RenderedLength` and `RenderedFrame`. |
| Device.QueueAfter | src/audio/device.rs:69-71 | The ring after `count` frames: one pop per frame while playing, muted or not. Stated by `QueueAfterLength`. |
| Device.RenderedLength | src/audio/device.rs:69 | A block of `count` complete frames is `count * channels` samples. |
| Device.RenderedFrame | src/audio/device.rs:69-87 | Frame f of a block is the output for the f-th pop decision, at slots `f*channels .. f*channels + channels`. |
| Device.SilentUnlessPlayingUnmuted | src/audio/device.rs:69-86 | While paused, or muted, every complete frame of the block is silence. |
| Device.UnderrunIsSilent | src/audio/device.rs:79-81 | A frame past the end of the queue is silence. |
| Device.PlayedFrameSlot | src/audio/device.rs:63-77 | Playing and unmuted, slot j of a popped frame's output is `convert(clamp(v * volume, -1, 1))` for a live channel, and the raw slot otherwise. |
| Device.PlayedSlot | src/audio/device.rs:55-77 | Slot `f*channels + j` of the block carries the f-th queued frame, scaled by the one amplitude read for the block and clamped. |
| Device.QueueAfterLength | src/audio/device.rs:69-71 | While playing, muted or not, a block pops exactly `min(occupancy, frames)` frames from the front; while paused the ring is unchanged. The length clause is what it adds: its two equations restate the two cases of `QueueAfter`. |
| Device.ZeroFrame | src/audio/device.rs:57-61 | Writes silence into the frame and nothing else. |
| Device.WriteFrame | src/audio/device.rs:69-86 | Writes `FrameOut` for the pop decision into the frame and nothing else. |
| Device.RenderNext | src/audio/device.rs:69-86 | One frame of the callback. The ring pops once while playing, and the rendered prefix grows by exactly that frame's output. The rest of the buffer is untouched. |
| Device.OutputStream | src/audio/device.rs:49-88 | The complete frames of `data` become `Rendered` of the ring at entry, the trailing partial frame is untouched, and the ring becomes `QueueAfter`. |
| Device.AudioDeviceContext.constructor | src/audio/device.rs:144-148 | Unmuted, amplitude 0, playing. |
| Device.AudioDevice.constructor | src/audio/device.rs:132-150 | Unavailable, no stream, no format, an empty ring of `BUFFER_CAPACITY`, a fresh context. |
| Device.AudioDevice.InitDefaultDevice | src/audio/device.rs:153-208 | Each failure gives its error and message. The format is recorded once chosen, even if building the stream then fails. Success makes the device available with a stream. |
| Device.AudioDevice.IsAvailable | src/audio/device.rs:264-266 | `is_available`: returns `available`. Its meaning for the player comes from `InitDefaultDevice`, `Open` and `OnStreamError`. |
| Device.AudioDevice.OnStreamError | src/audio/device.rs:180-184 | The error callback marks the device unavailable. |
| Device.AudioDevice.Open | src/audio/device.rs:211-223 | Fails with "not available", else with "not initialized" when there is no stream, else with the play error; otherwise Ok. |
| Device.AudioDevice.Pause | src/audio/device.rs:226-228 | Clears `playing`; mute and amplitude are unchanged. |
| Device.AudioDevice.Resume | src/audio/device.rs:231-233 | Sets `playing`; mute and amplitude are unchanged. |
| Device.AudioDevice.SetVolume | src/audio/device.rs:269-272 | 0 dB is amplitude exactly 1; any other gain goes through the curve; nothing else changes. |
| Device.AudioDevice.SetMute | src/audio/device.rs:275-277 | Sets `mute`; nothing else changes. |
| Device.AudioDevice.ClearOutputBuffer | src/audio/device.rs:259-261 | Discarding `BUFFER_CAPACITY` frames empties the ring. |
| Device.AudioDevice.ClearBuffer | src/audio/device.rs:280-282 | The same for any ring of that capacity. |
| Source.Chunks | src/audio/source.rs:164 | The chunks concatenate back to the slice. Every chunk is non-empty and at most `size` long, and all but the last are exactly `size` long. No chunks exactly for the empty slice. `size > 0` is required, because `chunks(0)` panics. |
| Source.Admits | src/audio/source.rs:174 | The admission test: `remaining` is not below the wrapped threshold. Its meaning is given by `AdmitsWithinWatermark` and `WrappedThresholdNeverAdmits`. |
| Source.Threshold | src/audio/source.rs:174 | The wait threshold is the `usize` value of `len + capacity - dyn`, wrapping modulo 2^64. |
| Source.AdmitsWithinWatermark | src/audio/source.rs:171-174 | When the subtraction does not wrap, passing the test means exactly that occupancy plus the chunk stays within the watermark. |
| Source.WrappedThresholdNeverAdmits | src/audio/source.rs:174 | When the watermark exceeds capacity plus the chunk, the wrapped threshold admits nothing. |
| Source.ChunkFitsDrainedRing | src/audio/source.rs:163-164 | A chunk of at most half the watermark is admitted once the ring is drained to half the watermark, in particular when empty. |
| Source.AdmittedWithinWatermark | src/audio/source.rs:174-188 | Any admitted push leaves occupancy within the watermark. |
| Source.ExactChunks | src/audio/source.rs:131 | Every group is exactly `c` long, and there is a group only when the input holds at least `c` values. |
| Source.ExactChunksSpan | src/audio/source.rs:131 | The groups cover the input except for fewer than `c` trailing values. |
| Source.ChunkAt | src/audio/source.rs:131 | Group k is the `c` values starting at `Offset(k, c)`, and those lie inside the input. |
| Source.Deinterleave | src/audio/source.rs:131-133 | Every frame has `channels == c`. |
| Source.DeinterleaveUnfold | src/audio/source.rs:131-133 | The first group becomes the first frame. The remaining frames are the frames of the values after it. |
| Source.DeinterleaveLength | src/audio/source.rs:128-133 | There are `len / c` frames for `len` values: `n*c <= len < n*c + c`. |
| Source.DeinterleaveFrame | src/audio/source.rs:131-133 | Frame k is built from `pcm[k*c .. k*c + c]`. |
| Source.FrameToSlice | src/audio/source.rs:122-134 | Gives None exactly where the source panics: a planar frame, zero channels, or more than 8 channels with at least one group. Otherwise gives the de-interleaved frames, never more than the values. |
| Source.InterleaveDeinterleave | src/audio/source.rs:127-133 | Interleaving the frames again gives a prefix of the PCM, missing fewer than c values. |
| Source.DeinterleaveInterleave | src/audio/source.rs:131-133 | Frames of c channels with zero dead slots survive interleave then de-interleave unchanged. |
| Source.SourceStatus.constructor | src/audio/source.rs:108-114 | Every flag is clear and the time is 0. |
| Source.WriteChunks | src/audio/source.rs:165-192 | Only appends to the ring. Never pushes past the watermark, or past where the ring already was. With the watermark within capacity, the ring gains the consecutive chunks handled. Each way of stopping has its flag condition: unavailable, dropping, or waiting while not admitted or not playing. Dropping, paused or unavailable means nothing is pushed. |
| Source.BlockingWriteBuffer | src/audio/source.rs:156-193 | Only appends, within the watermark. What reaches the ring is a prefix of the slice, and the whole slice once the writer completes. The abort conditions match `WriteChunks`. |
| Source.FFmpegSource.constructor | src/audio/source.rs:98-120 | Default media info, the given watermark with half of it as chunk size, no channels, no thread, all flags clear. |
| Source.FFmpegSource.Open | src/audio/source.rs:235-403 | Each ffmpeg failure gives its own error and message, in order, and keeps what was filled in before it: the cover, then the duration. Success creates both channels, records the stream, starts the thread and marks the source available. |
| Source.FFmpegSource.Close | src/audio/source.rs:407-423 | Always clears `avaliable`. With no suspend receiver it fails with "no file opened" and changes nothing else: the source's fields, the ring and the other status flags keep their values. Otherwise it waits for the thread to terminate, drops both channel ends and empties the ring. |
| Source.FFmpegSource.Streaming | src/audio/source.rs:425-428 | Sets `playing`, and only that. |
| Source.FFmpegSource.Pause | src/audio/source.rs:430-433 | Clears `playing`, and only that. |
| Source.FFmpegSource.Seek | src/audio/source.rs:435-447 | With no sender: the Seek error. With the thread gone: the SendSeek error. Otherwise `ms * 1000` is appended to the channel and `dropping_frames` is set. Nothing else changes, including the stream index. |
| Source.FFmpegSource.ClearBuffer | src/audio/source.rs:449-451 | Sets `dropping_frames`, and only that; the ring is not touched. |
| Source.FFmpegSource.GetBitrate | src/audio/source.rs:457-459 | Always 0: nothing fills the bitrate in. |
| Source.FFmpegSource.SetBufferChunkSize | src/audio/source.rs:465-467 | Sets the chunk size, and only that. |
| Source.FFmpegSource.SetDynamicDeviceBufferSize | src/audio/source.rs:477-480 | The watermark becomes n and the chunk size n / 2. |
| Source.FFmpegSource.WorkerOuterTop | src/audio/source.rs:304-309 | The outer loop is left when unavailable; otherwise the seekable loop starts with no seek pending. |
| Source.FFmpegSource.WorkerInnerTop | src/audio/source.rs:310-326 | A pending seek repositions the input. If that succeeds, the ring is cleared. When unavailable, the thread goes to the end of playback. |
| Source.FFmpegSource.WorkerRead | src/audio/source.rs:327-338 | The end of input, or unavailability, ends the packet loop. A packet clears `dropping_frames`. A queued seek request is received in order and restarts the seekable loop. |
| Source.FFmpegSource.WorkerWaitPlaying | src/audio/source.rs:340-364 | While paused and available the thread keeps waiting. Then only packets of the audio stream are decoded: they update the current time from their time stamp, and a refused packet panics. |
| Source.FFmpegSource.WorkerDecode | src/audio/source.rs:206-224 | Each resampled output is de-interleaved and chunked for writing. A resampler error, an unconvertible frame or a zero chunk size panics. No output left, or unavailability, returns to the packet loop. |
| Source.FFmpegSource.WorkerWrite | src/audio/source.rs:219-224 | Writes the output's chunks under the watermark read for the packet, as `WriteChunks`. A wait resumes at the chunk waited for. |
| Source.FFmpegSource.WorkerFinish | src/audio/source.rs:372-380 | At end of stream: not playing, time 0, `is_end` set. |
| Source.FFmpegSource.WorkerEndWait | src/audio/source.rs:382-395 | A closed source sends the completion signal and the thread returns. A resume clears `is_end` and rewinds the input to 0. Otherwise the thread keeps waiting. |
| Player.DynamicBufferSize | src/player.rs:81 | The watermark for a sample rate is `rate * 8 / 100` truncated: `n*100 <= 8*rate < n*100 + 100`. |
| Player.AmplitudeOf | src/player.rs:75 | The amplitude the device ends up with for a level. Level 1 is exactly 1; otherwise it is the curve at the level's dB, unless that dB is 0. |
| Player.YakoPlayer.constructor | src/player.rs:56-62 | No device, no source, volume 1. |
| Player.YakoPlayer.OpenDevice | src/player.rs:73-86 | Initialise, apply the recorded volume, start the stream, each error passed on. An open source gets the watermark for the new sample rate, and only on success. The ring is not touched and the mute flag is kept. |
| Player.YakoPlayer.InitDeviceDefault | src/player.rs:72-100 | A present device is re-initialised in place. A new device is kept only if it opens. Success leaves an available device whose amplitude matches the recorded volume. A present device keeps its ring and its mute flag, whatever the outcome. |
| Player.YakoPlayer.EnsureDevice | src/player.rs:103-105 | An available device is left alone. Otherwise the device is initialised, and a failure there is the panic of `unwrap`. A present device stays installed and keeps its ring and mute flag, for example after a stream error. |
| Player.YakoPlayer.ReplaceSourceAsWritten | src/player.rs:112-124 | The second half of `open` as written. A source with no file open fails to close with CloseMediaFile("no file opened") and stays installed. A failed new open leaves the closed old source installed. With no old source, a clean file always opens. |
| Player.YakoPlayer.OpenAsWritten | src/player.rs:102-126 | The existing source is closed first. A close error is returned and no new source is installed. Success installs a fresh open source with the device's watermark. |
| Player.YakoPlayer.ReplaceSource | src/player.rs:112-124 | Corrected second half of `open`. The closed source is dropped before the new one is opened, so no closed source stays installed. A clean file on an available device always opens. |
| Player.YakoPlayer.Open | src/player.rs:102-126 | Corrected `open`: keeps every installed source open. Never fails with CloseMediaFile, and always succeeds for a clean file on a device that is available or can be brought up. |
| Player.YakoPlayer.CloseAsWritten | src/player.rs:128-134 | Closes the source and returns its error. The closed source stays installed. |
| Player.YakoPlayer.Close | src/player.rs:128-134 | Corrected `close`: a successful close removes the source. It cannot fail while every installed source is open. |
| Player.YakoPlayer.Play | src/player.rs:136-148 | After ensuring a device (a failure is the panic), the device and the source are both playing. The source's other status flags keep their values. With an already available device, its mute flag, amplitude and ring, and the source's own fields, stay as they were. |
| Player.YakoPlayer.Stop | src/player.rs:150-157 | Without a source: Ok. Otherwise the source is paused and set dropping, and the seek to 0 decides the result. Its error is returned: "no file opened", or the thread has terminated. Only the source and its status may change, so the device and the ring never do. The source's settings, thread phase, position, `is_end` and time stay as they were. |
| Player.YakoPlayer.Pause | src/player.rs:159-167 | With a device: the device and then the source are paused, and only `playing` changes. Mute, amplitude, the ring and the source's other flags stay as they were. Without a device nothing changes. |
| Player.YakoPlayer.Seek | src/player.rs:169-174 | Forwarded to the source with its errors: "no file opened" without a sender, SendSeek with the thread gone. On success the request is queued and `dropping_frames` is set. Nothing else changes, and with no source the result is Ok and nothing changes at all. |
| Player.YakoPlayer.SetVolume | src/player.rs:208-214 | The level is always recorded and `get_volume` returns it. A device gets `AmplitudeOf(level)`; mute and playing are unchanged. Only the player and the device's context may change, so the ring and the source never do. |
| Player.YakoPlayer.SetMute | src/player.rs:216-221 | A device's mute flag is set, and its amplitude, playing flag and ring stay as they were; Ok either way. Without a device nothing changes. |
| Player.YakoPlayer.GetBitrate | src/player.rs:176-181 | Within `u32`, and always 0. |
| Player.YakoPlayer.GetDuration | src/player.rs:183-188 | 0 with no source, else the source's duration. |
| Player.YakoPlayer.GetCurrentTime | src/player.rs:190-195 | 0 with no source, else the source's current time. |
| Player.YakoPlayer.IsPlaying | src/player.rs:197-202 | True exactly when there is a source and it is playing. |
| Player.YakoPlayer.GetMediaInfo | src/player.rs:223-225 | None exactly when there is no source; otherwise the source's media info. |
| Player.ReopenAfterCloseAsWritten | src/player.rs:112-134 | As written, open / close / open of a playable file ends in CloseMediaFile("no file opened"). |
| Player.ReopenAfterClose | src/player.rs:112-134 | With the corrected `open` and `close`, the same sequence succeeds. |
| Player.ReopenAfterFailedOpenAsWritten | src/player.rs:112-124 | As written, open / failed open / open ends in CloseMediaFile("no file opened"). |
| Player.ReopenAfterFailedOpen | src/player.rs:112-124 | With the corrected `open`, the third open succeeds. |

## Left out

- cpal's device enumeration, configuration query and stream building are not modelled. `init_default_device` takes a `DeviceProbe` saying how they turned out.
- ffmpeg's demuxing, decoding, resampling and seeking are not modelled: a `MediaProbe`, `Packet` and `Resampled` stand in for them. `decoder.flush` and `clear_resampler_buffer` (swr_close/swr_init) after a seek have no observable effect in the model.
- The receive/flush loop of `decode_to_buffer` is flattened into one sequence of resampled outputs per packet, with one availability test per output.
- `device_sample_format`, passed to `FFmpegSource::open`, only configures the resampler. It is not modelled, because a packet's outputs already carry the resampled frames.
- The floating-point formulas of src/audio/volume.rs (`powf`, `exp`) are parameters of a `GainCurve` and are not interpreted.
- The float conversions of the PTS and of the container duration to milliseconds are not modelled. Packets and probes carry milliseconds already.
- `f32` rounding is not modelled: samples are reals. `sample_rate as f64 * 0.08` truncated is modelled as `rate * 8 / 100`. The two agree for every `u32` rate, because the `f64` nearest to 0.08 lies slightly above it and the rounding error stays far below 0.01.
- The i64 overflow of `rescale` in `seek` is not modelled: the request is `ms * 1000` on unbounded integers.
- Thread spawning, `sleep` polling, channel blocking and atomic memory orderings are not modelled. Each wait is a step that returns to the caller, and the flags can change between steps.
- `AudioDevice::close`, which ends in `todo!()` (src/audio/device.rs:245), is not modelled.
- The callbacks for the `i16`, `u16` and `f32` sample formats are one generic `OutputStream` with a `convert` function. cpal's `Sample::from` conversions are not interpreted.
- Device.OutputStream: requires 1 to 8 output channels. With 0 channels `chunks_exact_mut` panics. With more than 8, the source panics only when a popped frame is written while playing and unmuted, because `write_slice_convert` then indexes past the frame's 8 slots. A paused, muted or underrun callback with more than 8 channels writes silence without panicking, and the model does not cover that case.
- Source.FFmpegSource.Open: requires a source that has never been opened, which is how the player uses it.
- Source.FFmpegSource.Open: sets `avaliable` and starts the decode thread in one step. In the source the thread is spawned (src/audio/source.rs:302-305) before `avaliable` is stored as true (src/audio/source.rs:400). The thread's first check can therefore read the `false` left by `new` or `close` and return at once, after which seeks fail with SendSeek. The model does not capture this interleaving. It is a possible defect of the source and has not been executed.
- Source.WriteChunks: the exact ring contents are stated only when the watermark is within the ring's capacity; beyond that only the bounds are stated.
- Source.BlockingWriteBuffer: the same restriction as `WriteChunks` for a watermark beyond capacity. A debug build's underflow panic in the threshold is not modelled, only the release-build wrap.
- Player.YakoPlayer.EnsureDevice: an initialisation failure in `open` and `play` is the `Panicked` error rather than a process abort.
- Player.YakoPlayer.GetVolume, Device.AudioDevice.IsAvailable, and the getters of `FFmpegSource` other than `get_bitrate`, read a field and carry no contract of their own. `get_volume` is stated through `SetVolume`.
- The C interface (src/lib.rs, ffi/yako_player.h), the GUI (src/main.rs) and the cover-art scan (src/metadata/ffmpeg.rs) are not part of this model.

## Findings

| source | as written | input that shows it | evidently intended | confidence | as-written member | corrected member |
|---|---|---|---|---|---|---|
| src/player.rs:128-134 | `close` closes the source but leaves it installed. The next `open` closes it again, and `FFmpegSource::close` fails because its suspend receiver is gone. | open a playable file, close, open it again | Closing removes the source, so the next open starts clean. | medium, not executed | Player.ReopenAfterCloseAsWritten | Player.ReopenAfterClose |
| src/player.rs:112-124 | `open` closes the old source, then returns early when the new file fails to open. The closed old source stays installed, so every later `open` fails with CloseMediaFile. | open a playable file, open a missing file, open the playable file again | The closed source is dropped before the new one is opened. | medium, not executed | Player.ReopenAfterFailedOpenAsWritten | Player.ReopenAfterFailedOpen |
