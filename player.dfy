/**
 * `YakoPlayer` (src/player.rs): the facade over an optional output device and an
 * optional source. Everything it does is a short sequence of calls into the two, with
 * errors wrapped and returned early.
 *
 * What the hardware layer and ffmpeg report is passed in: a `DeviceProbe` and whether
 * the stream starts playing for every device (re-)initialisation, a `MediaProbe` for
 * every file opened.
 */
module Player {
  import opened Common
  import opened Device
  import opened Source
  import opened Volume

  /** `player::Error`, plus the panics of `init_device_defalut().unwrap()`. */
  datatype PlayerError =
    | FromDevice(deviceError: DeviceError)
    | FromSource(sourceError: SourceError)
    | Panicked

  /** `(sample_rate as f64 * 0.08) as usize`. The double nearest 0.08 lies above it, so
      for a 32-bit rate the truncated product is the truncated exact one. */
  function DynamicBufferSize(sampleRate: Uint32): (n: Usize)
    ensures n * 100 <= sampleRate * 8 < n * 100 + 100
  {
    sampleRate * 8 / 100
  }

  /** The amplitude `set_volume(volume_level_to_db(level))` stores: exactly 1 for the
      full level. */
  function AmplitudeOf(curve: GainCurve, level: real): (a: real)
    ensures level == 1.0 ==> a == 1.0
    ensures LevelToDb(curve, level) != 0.0 ==> a == curve.dbToAmplitude(LevelToDb(curve, level))
  {
    var db := LevelToDb(curve, level);
    if db == 0.0 then 1.0 else curve.dbToAmplitude(db)
  }

  /** A file for which every step of `FFmpegSource::open` succeeds. */
  predicate OpensCleanly(media: MediaProbe)
  {
    && media.inputOpens && media.audioStream.Some? && media.codecContextOk
    && media.decoderOk && media.parametersOk && media.resamplerOk
  }

  class YakoPlayer {
    var device: AudioDevice?
    var source: FFmpegSource?
    /** The last volume level set, between 0 and 1. */
    var volume: real
    /** The float formulas of the volume mapping. */
    const curve: GainCurve

    ghost function Repr(): set<object>
      reads this
    {
      {this}
      + (if device != null then {device, device.queue, device.context} else {})
      + (if source != null then {source, source.status, source.queue} else {})
    }

    /** A source exists only next to a device, and writes into that device's ring. */
    ghost predicate Valid()
      reads Repr()
    {
      && (device != null ==> device.Valid())
      && (source != null ==> device != null && source.Valid() && source.queue == device.queue)
    }

    /** Every installed source still has its file open. */
    ghost predicate Consistent()
      reads this, source
    {
      source != null ==> source.suspendReceiver
    }

    /** `YakoPlayer::new`: no device, no source, volume 1. */
    constructor (curve: GainCurve)
      ensures Valid() && device == null && source == null && volume == 1.0 && this.curve == curve
    {
      device := null;
      source := null;
      volume := 1.0;
      this.curve := curve;
    }

    /** The `open_device` closure of `init_device_defalut` on device `d`: initialise,
        apply the recorded volume, start the stream, and hand an open source the
        watermark for the new sample rate. */
    method OpenDevice(d: AudioDevice, probe: DeviceProbe, playOk: bool) returns (r: Result<(), PlayerError>)
      requires d.Valid()
      requires source != null ==> source.Valid() && source.queue == d.queue
      modifies d, d.context, if source != null then {source} else {}
      ensures d.Valid() && (source != null ==> source.Valid())
      ensures r.Ok? <==> probe.StreamReady? && playOk
      ensures !probe.StreamReady? ==> match probe
                case NoOutputDevice => r == Err(FromDevice(InitDevice(NoOutputDeviceMessage)))
                case ConfigQueryFails => r == Err(FromDevice(DeviceConfig(ConfigQueryMessage)))
                case NoSupportedConfig => r == Err(FromDevice(InitDevice(NoSupportedFormatMessage)))
                case BuildFails(_) => r == Err(FromDevice(BuildStream))
      ensures probe.StreamReady? && !playOk ==> r == Err(FromDevice(PlayStream))
      ensures probe.StreamReady? ==> d.available && d.sampleFormat == Some(probe.format)
      ensures probe.StreamReady? ==> d.context.volumeAmplitude == AmplitudeOf(curve, volume)
      ensures r.Ok? && source != null ==>
                && source.dynamicSize == DynamicBufferSize(probe.format.sampleRate)
                && source.chunkSize == source.dynamicSize / 2
      ensures source != null && r.Err? ==>
                source.dynamicSize == old(source.dynamicSize) && source.chunkSize == old(source.chunkSize)
      ensures source != null ==> source.phase == old(source.phase) && source.mediaInfo == old(source.mediaInfo)
      ensures source != null ==> source.seekSender == old(source.seekSender) && source.suspendReceiver == old(source.suspendReceiver)
      ensures d.context.mute == old(d.context.mute)
    {
      var init := d.InitDefaultDevice(probe);
      if init.Err? {
        return Err(FromDevice(init.error));
      }
      d.SetVolume(LevelToDb(curve, volume), curve.dbToAmplitude);
      var started := d.Open(playOk);
      if started.Err? {
        return Err(FromDevice(started.error));
      }
      if source != null {
        source.SetDynamicDeviceBufferSize(DynamicBufferSize(d.sampleFormat.value.sampleRate));
      }
      return Ok(());
    }

    /** `init_device_defalut`: re-initialises the present device in place, or creates
        one and keeps it only if it opens. */
    method InitDeviceDefault(probe: DeviceProbe, playOk: bool) returns (r: Result<(), PlayerError>)
      requires Valid()
      modifies Repr()
      ensures fresh(Repr() - old(Repr()))
      ensures Valid() && source == old(source) && volume == old(volume)
      ensures r.Ok? <==> probe.StreamReady? && playOk
      ensures r.Ok? ==> device != null && device.IsAvailable() && device.sampleFormat == Some(probe.format)
      ensures r.Ok? ==> device.context.volumeAmplitude == AmplitudeOf(curve, volume)
      ensures old(device) != null ==> device == old(device)
      ensures old(device) == null && r.Err? ==> device == null
      ensures old(device) == null && r.Ok? ==> fresh(device) && fresh(device.context)
      ensures source != null ==> unchanged(source.status)
      ensures r.Ok? && source != null ==> source.dynamicSize == DynamicBufferSize(probe.format.sampleRate)
      ensures source != null ==> source.phase == old(source.phase) && source.mediaInfo == old(source.mediaInfo)
      ensures source != null ==> source.seekSender == old(source.seekSender)
      ensures old(device) != null ==> unchanged(device.queue) && device.context.mute == old(device.context.mute)
    {
      if device == null {
        var d := new AudioDevice();
        r := OpenDevice(d, probe, playOk);
        if r.Ok? {
          device := d;
        }
      } else {
        r := OpenDevice(device, probe, playOk);
      }
    }

    /** The first half of `open` and `play`: a missing or unavailable device is
        initialised, and a failure there is a panic. */
    method EnsureDevice(probe: DeviceProbe, playOk: bool) returns (r: Result<(), PlayerError>)
      requires Valid()
      modifies Repr()
      ensures fresh(Repr() - old(Repr()))
      ensures Valid() && source == old(source) && volume == old(volume)
      ensures r.Ok? || r == Err(Panicked)
      ensures r.Ok? ==> device != null && device.IsAvailable() && device.sampleFormat.Some?
      ensures old(device) != null && old(device.IsAvailable()) ==> r.Ok? && device == old(device)
      ensures (old(device) == null || !old(device.IsAvailable())) ==> (r.Ok? <==> probe.StreamReady? && playOk)
      ensures device == old(device) || (fresh(device) && fresh(device.context))
      ensures source != null ==> unchanged(source.status)
      ensures source != null ==> source.phase == old(source.phase) && source.mediaInfo == old(source.mediaInfo)
      ensures source != null ==> source.seekSender == old(source.seekSender)
      ensures source != null ==> source.suspendReceiver == old(source.suspendReceiver)
      ensures old(device) != null && old(device.IsAvailable()) ==>
                unchanged(device, device.context, device.queue) && (source != null ==> unchanged(source))
      ensures old(device) != null ==> device == old(device) && unchanged(device.queue) && device.context.mute == old(device.context.mute)
    {
      if device == null || !device.IsAvailable() {
        var init := InitDeviceDefault(probe, playOk);
        if init.Err? {
          return Err(Panicked);
        }
      }
      return Ok(());
    }

    /** `open` as the source has it: the old source is closed but stays installed when
        the new one fails to open, and closing it again later fails. */
    method OpenAsWritten(probe: DeviceProbe, playOk: bool, media: MediaProbe) returns (r: Result<(), PlayerError>)
      requires Valid()
      modifies Repr()
      ensures fresh(Repr() - old(Repr()))
      ensures Valid() && volume == old(volume)
      ensures r.Ok? ==> source != null && fresh(source) && source.status.available && source.phase == OuterTop
      ensures r.Ok? ==> device != null && device.sampleFormat.Some?
                        && source.dynamicSize == DynamicBufferSize(device.sampleFormat.value.sampleRate)
      ensures old(source) != null && !old(source.suspendReceiver) && old(device) != null && old(device.IsAvailable()) ==>
                r == Err(FromSource(CloseMediaFile(NoFileOpenedMessage))) && source == old(source)
      ensures r.Ok? ==> source.suspendReceiver && device.IsAvailable() && OpensCleanly(media)
      ensures old(device) != null && old(device.IsAvailable()) ==> device == old(device) && device.IsAvailable()
      ensures (&& old(source) == null && OpensCleanly(media)
               && ((old(device) != null && old(device.IsAvailable())) || (probe.StreamReady? && playOk)))
              ==> r.Ok?
      ensures (&& r.Err? && old(source) != null && old(source.suspendReceiver)
               && old(device) != null && old(device.IsAvailable()))
              ==> source == old(source) && !source.suspendReceiver
      ensures r.Err? ==> source == old(source)
    {
      r := EnsureDevice(probe, playOk);
      if r.Ok? {
        r := ReplaceSourceAsWritten(media);
      }
    }

    /** The second half of `open` as the source has it, on an available device: close
        the current source, keeping it installed, then open a new one. */
    method ReplaceSourceAsWritten(media: MediaProbe) returns (r: Result<(), PlayerError>)
      requires Valid() && device != null && device.IsAvailable() && device.sampleFormat.Some?
      modifies Repr()
      ensures fresh(Repr() - old(Repr()))
      ensures Valid() && volume == old(volume) && device == old(device) && device.IsAvailable()
      ensures r.Ok? ==> source != null && fresh(source) && source.status.available && source.phase == OuterTop
      ensures r.Ok? ==> source.dynamicSize == DynamicBufferSize(device.sampleFormat.value.sampleRate)
      ensures r.Ok? ==> source.suspendReceiver && OpensCleanly(media)
      ensures old(source) != null && !old(source.suspendReceiver) ==>
                r == Err(FromSource(CloseMediaFile(NoFileOpenedMessage))) && source == old(source)
      ensures old(source) == null && OpensCleanly(media) ==> r.Ok?
      ensures r.Err? && old(source) != null && old(source.suspendReceiver) ==>
                source == old(source) && !source.suspendReceiver
      ensures r.Err? ==> source == old(source)
    {
      var dyn := DynamicBufferSize(device.sampleFormat.value.sampleRate);
      if source != null {
        var closed := source.Close();
        if closed.Err? {
          return Err(FromSource(closed.error));
        }
      }
      var s := new FFmpegSource(device.queue, dyn);
      var started := s.Open(media);
      if started.Err? {
        return Err(FromSource(started.error));
      }
      source := s;
      return Ok(());
    }

    /** `open`, with a successfully closed source taken out of the player before the new
        one is opened, so a failed open leaves no source behind. */
    method Open(probe: DeviceProbe, playOk: bool, media: MediaProbe) returns (r: Result<(), PlayerError>)
      requires Valid()
      modifies Repr()
      ensures fresh(Repr() - old(Repr()))
      ensures Valid() && volume == old(volume)
      ensures r.Ok? ==> source != null && fresh(source) && source.status.available && source.phase == OuterTop
      ensures r.Ok? ==> device != null && device.sampleFormat.Some?
                        && source.dynamicSize == DynamicBufferSize(device.sampleFormat.value.sampleRate)
      ensures r.Ok? ==> source.suspendReceiver && device.IsAvailable() && OpensCleanly(media)
      ensures old(device) != null && old(device.IsAvailable()) ==> device == old(device) && device.IsAvailable()
      ensures old(Consistent()) ==> Consistent() && r != Err(FromSource(CloseMediaFile(NoFileOpenedMessage)))
      ensures (&& old(Consistent()) && OpensCleanly(media)
               && ((old(device) != null && old(device.IsAvailable())) || (probe.StreamReady? && playOk)))
              ==> r.Ok?
      ensures r.Err? ==> source == null || source == old(source)
    {
      r := EnsureDevice(probe, playOk);
      if r.Ok? {
        r := ReplaceSource(media);
      }
    }

    /** The second half of the corrected `open`, on an available device: close the
        current source and drop it, then open a new one on the device's ring. */
    method ReplaceSource(media: MediaProbe) returns (r: Result<(), PlayerError>)
      requires Valid() && device != null && device.IsAvailable() && device.sampleFormat.Some?
      modifies Repr()
      ensures fresh(Repr() - old(Repr()))
      ensures Valid() && volume == old(volume) && device == old(device) && device.IsAvailable()
      ensures r.Ok? ==> source != null && fresh(source) && source.status.available && source.phase == OuterTop
      ensures r.Ok? ==> source.dynamicSize == DynamicBufferSize(device.sampleFormat.value.sampleRate)
      ensures r.Ok? ==> source.suspendReceiver && OpensCleanly(media)
      ensures old(Consistent()) ==> Consistent() && r != Err(FromSource(CloseMediaFile(NoFileOpenedMessage)))
      ensures old(Consistent()) && OpensCleanly(media) ==> r.Ok?
      ensures r.Err? ==> source == null || source == old(source)
    {
      var dyn := DynamicBufferSize(device.sampleFormat.value.sampleRate);
      if source != null {
        var closed := source.Close();
        if closed.Err? {
          return Err(FromSource(closed.error));
        }
        source := null;
      }
      var s := new FFmpegSource(device.queue, dyn);
      var started := s.Open(media);
      if started.Err? {
        return Err(FromSource(started.error));
      }
      source := s;
      return Ok(());
    }

    /** `close` as the source has it: the closed source stays installed. */
    method CloseAsWritten() returns (r: Result<(), PlayerError>)
      requires Valid()
      modifies Repr()
      ensures fresh(Repr() - old(Repr()))
      ensures Valid() && source == old(source) && device == old(device) && volume == old(volume)
      ensures device != null ==> device.available == old(device.available)
      ensures old(source) == null ==> r.Ok?
      ensures old(source) != null ==>
                && !source.status.available && !source.suspendReceiver
                && (r.Ok? <==> old(source.suspendReceiver))
      ensures old(source) != null && !old(source.suspendReceiver) ==> r == Err(FromSource(CloseMediaFile(NoFileOpenedMessage)))
    {
      if source != null {
        var closed := source.Close();
        if closed.Err? {
          return Err(FromSource(closed.error));
        }
      }
      return Ok(());
    }

    /** `close`, with the closed source taken out of the player. */
    method Close() returns (r: Result<(), PlayerError>)
      requires Valid()
      modifies Repr()
      ensures fresh(Repr() - old(Repr()))
      ensures Valid() && device == old(device) && volume == old(volume)
      ensures device != null ==> device.available == old(device.available)
      ensures old(source) == null ==> r.Ok? && source == null
      ensures r.Ok? ==> source == null && Consistent()
      ensures old(Consistent()) ==> r.Ok?
      ensures old(source) != null ==> !old(source).status.available
      ensures r.Err? ==> source == old(source) && r == Err(FromSource(CloseMediaFile(NoFileOpenedMessage)))
    {
      if source != null {
        var closed := source.Close();
        if closed.Err? {
          return Err(FromSource(closed.error));
        }
        source := null;
      }
      return Ok(());
    }

    /** `play`: makes sure of a device (a failure there is a panic), resumes it and
        streams the source. */
    method Play(probe: DeviceProbe, playOk: bool) returns (r: Result<(), PlayerError>)
      requires Valid()
      modifies Repr()
      ensures Valid() && source == old(source) && volume == old(volume)
      ensures r.Ok? || r == Err(Panicked)
      ensures old(device) != null && old(device.IsAvailable()) ==> r.Ok?
      ensures r.Ok? ==> device != null && device.context.playing && (source != null ==> source.status.playing)
      ensures r.Err? && source != null ==> source.status.playing == old(source.status.playing)
      ensures source != null ==>
                && source.status.available == old(source.status.available)
                && source.status.droppingFrames == old(source.status.droppingFrames)
                && source.status.isEnd == old(source.status.isEnd)
                && source.status.currentTime == old(source.status.currentTime)
      ensures old(device) != null && old(device.IsAvailable()) ==>
                && device == old(device) && unchanged(device, device.queue)
                && device.context.mute == old(device.context.mute)
                && device.context.volumeAmplitude == old(device.context.volumeAmplitude)
                && (source != null ==> unchanged(source))
    {
      r := EnsureDevice(probe, playOk);
      if r.Err? {
        return;
      }
      device.Resume();
      if source != null {
        var streamed := source.Streaming();
      }
      return Ok(());
    }

    /** `stop`: with a source, pause it, set it dropping frames and seek it to 0, the
        first error returned. Pausing and dropping cannot fail, so only the seek can; it
        fails when nothing is open or when the thread has terminated. */
    method Stop() returns (r: Result<(), PlayerError>)
      requires Valid()
      modifies if source != null then {source, source.status} else {}
      ensures Valid() && source == old(source) && device == old(device) && volume == old(volume)
      ensures source == null ==> r.Ok?
      ensures source != null ==>
                && !source.status.playing && source.status.droppingFrames
                && (r.Ok? <==> old(source.seekSender) && Running(source.phase))
                && (r.Ok? ==> source.seekRequests == old(source.seekRequests) + [0])
                && (r.Err? ==> source.seekRequests == old(source.seekRequests))
                && (!old(source.seekSender) ==> r == Err(FromSource(SourceError.Seek(NoFileOpenedMessage))))
                && (old(source.seekSender) && !Running(source.phase) ==>
                      r == Err(FromSource(SendSeek(ThreadTerminatedMessage))))
      ensures source != null ==> source.SessionKept()
    {
      if source != null {
        var paused := source.Pause();
        source.ClearBuffer();
        var sought := source.Seek(0);
        if sought.Err? {
          return Err(FromSource(sought.error));
        }
      }
      return Ok(());
    }

    /** `pause`: the device first, then the source; without a device nothing happens,
        even to a source. */
    method Pause() returns (r: Result<(), PlayerError>)
      requires Valid()
      modifies if device != null then {device.context} else {}
      modifies if device != null && source != null then {source.status} else {}
      ensures Valid() && source == old(source) && device == old(device) && volume == old(volume)
      ensures r.Ok?
      ensures device != null ==> !device.context.playing && (source != null ==> !source.status.playing)
      ensures device != null ==>
                && device.context.mute == old(device.context.mute)
                && device.context.volumeAmplitude == old(device.context.volumeAmplitude)
      ensures device != null && source != null ==>
                && source.status.available == old(source.status.available)
                && source.status.droppingFrames == old(source.status.droppingFrames)
                && source.status.isEnd == old(source.status.isEnd)
                && source.status.currentTime == old(source.status.currentTime)
    {
      if device != null {
        device.Pause();
        if source != null {
          var paused := source.Pause();
        }
      }
      return Ok(());
    }

    /** `seek`: forwarded to the source; a no-op without one. */
    method Seek(timeMs: int) returns (r: Result<(), PlayerError>)
      requires Valid()
      modifies if source != null then {source, source.status} else {}
      ensures Valid() && source == old(source) && device == old(device) && volume == old(volume)
      ensures source == null ==> r.Ok?
      ensures source != null ==>
                && (r.Ok? <==> old(source.seekSender) && Running(source.phase))
                && (r.Ok? ==> source.seekRequests == old(source.seekRequests) + [timeMs * 1000] && source.status.droppingFrames)
                && (r.Err? ==> source.seekRequests == old(source.seekRequests)
                               && source.status.droppingFrames == old(source.status.droppingFrames))
                && (!old(source.seekSender) ==> r == Err(FromSource(SourceError.Seek(NoFileOpenedMessage))))
                && (old(source.seekSender) && !Running(source.phase) ==>
                      r == Err(FromSource(SendSeek(ThreadTerminatedMessage))))
                && source.SessionKept() && source.status.playing == old(source.status.playing)
    {
      if source != null {
        var sought := source.Seek(timeMs);
        if sought.Err? {
          return Err(FromSource(sought.error));
        }
      }
      return Ok(());
    }

    /** `set_volume`: the level is recorded whether or not there is a device; a
        device gets its amplitude. */
    method SetVolume(level: real) returns (r: Result<(), PlayerError>)
      requires Valid()
      modifies this, if device != null then {device.context} else {}
      ensures Valid() && source == old(source) && device == old(device)
      ensures r.Ok? && volume == level && GetVolume() == level
      ensures device != null ==> device.context.volumeAmplitude == AmplitudeOf(curve, level)
      ensures device != null ==> device.context.mute == old(device.context.mute) && device.context.playing == old(device.context.playing)
    {
      volume := level;
      if device != null {
        device.SetVolume(LevelToDb(curve, level), curve.dbToAmplitude);
      }
      return Ok(());
    }

    /** `get_volume`. */
    function GetVolume(): real
      reads this
    {
      volume
    }

    /** `set_mute`: forwarded to the device; a no-op without one. */
    method SetMute(mute: bool) returns (r: Result<(), PlayerError>)
      requires Valid()
      modifies if device != null then {device.context} else {}
      ensures Valid() && source == old(source) && device == old(device) && volume == old(volume)
      ensures r.Ok?
      ensures device != null ==> device.context.mute == mute && device.context.playing == old(device.context.playing)
      ensures device != null ==> device.context.volumeAmplitude == old(device.context.volumeAmplitude)
    {
      if device != null {
        device.SetMute(mute);
      }
      return Ok(());
    }

    /** `get_bitrate`: the source's bitrate truncated to `u32`, 0 without a source; as
        no source ever fills its bitrate in, always 0. */
    function GetBitrate(): (b: int)
      reads Repr()
      requires Valid()
      ensures 0 <= b < 0x1_0000_0000
      ensures b == 0
    {
      if source == null then 0 else source.GetBitrate() % 0x1_0000_0000
    }

    /** `get_duration`: 0 without a source. */
    function GetDuration(): (d: int)
      reads this, source
      ensures source == null ==> d == 0
      ensures source != null ==> d == source.mediaInfo.duration
    {
      if source == null then 0 else source.GetDuration()
    }

    /** `get_current_time`: 0 without a source. */
    function GetCurrentTime(): (t: int)
      reads Repr()
      ensures source == null ==> t == 0
      ensures source != null ==> t == source.status.currentTime
    {
      if source == null then 0 else source.GetCurrentTime()
    }

    /** `is_playing`: false without a source. */
    function IsPlaying(): (p: bool)
      reads Repr()
      ensures p <==> source != null && source.status.playing
    {
      if source == null then false else source.IsStreaming()
    }

    /** `get_media_info`: None without a source. */
    function GetMediaInfo(): (m: Option<MediaInfo>)
      reads this, source
      ensures m.None? <==> source == null
      ensures m.Some? ==> m.value == source.mediaInfo
    {
      if source == null then None else Some(source.GetMediaInfo())
    }
  }

  /** A default output device that comes up at 48 kHz, `f32`, stereo. */
  const ReadyDevice: DeviceProbe := StreamReady(DeviceSampleFormat(48000, F32, 2))
  /** A file every step of which opens. */
  const PlayableFile: MediaProbe := MediaProbe(true, None, Some(0), true, true, true, 180000, true)
  /** A file that cannot be opened at all. */
  const MissingFile: MediaProbe := MediaProbe(false, None, None, false, false, false, 0, false)

  /** Open, close, open again, with `open` and `close` as written: the second open
      fails, because it closes the already closed source once more. */
  method ReopenAfterCloseAsWritten(curve: GainCurve) returns (r: Result<(), PlayerError>)
    ensures r == Err(FromSource(CloseMediaFile(NoFileOpenedMessage)))
  {
    var p := new YakoPlayer(curve);
    var first := p.OpenAsWritten(ReadyDevice, true, PlayableFile);
    var closed := p.CloseAsWritten();
    r := p.OpenAsWritten(ReadyDevice, true, PlayableFile);
  }

  /** The same sequence with the corrected `open` and `close`: the file reopens. */
  method ReopenAfterClose(curve: GainCurve) returns (r: Result<(), PlayerError>)
    ensures r.Ok?
  {
    var p := new YakoPlayer(curve);
    var first := p.Open(ReadyDevice, true, PlayableFile);
    var closed := p.Close();
    r := p.Open(ReadyDevice, true, PlayableFile);
  }

  /** Open a file, fail to open a second one, then open the first again, with `open`
      as written: the failed open left the closed source installed, so the third open
      fails too. */
  method ReopenAfterFailedOpenAsWritten(curve: GainCurve) returns (r: Result<(), PlayerError>)
    ensures r == Err(FromSource(CloseMediaFile(NoFileOpenedMessage)))
  {
    var p := new YakoPlayer(curve);
    var first := p.OpenAsWritten(ReadyDevice, true, PlayableFile);
    var failed := p.OpenAsWritten(ReadyDevice, true, MissingFile);
    r := p.OpenAsWritten(ReadyDevice, true, PlayableFile);
  }

  /** The same sequence with the corrected `open`: the third open succeeds. */
  method ReopenAfterFailedOpen(curve: GainCurve) returns (r: Result<(), PlayerError>)
    ensures r.Ok?
  {
    var p := new YakoPlayer(curve);
    var first := p.Open(ReadyDevice, true, PlayableFile);
    var failed := p.Open(ReadyDevice, true, MissingFile);
    r := p.Open(ReadyDevice, true, PlayableFile);
  }
}
