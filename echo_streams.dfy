/**
 * The two audio streams the interactive echo app opens from the collected
 * parameters: both carry 40 ms of audio per buffer.
 */
module EchoStreams {
  import opened SampleFormat
  import opened Parameters

  /** frameSize, in milliseconds. */
  const FrameSizeMs: nat := 40

  /**
   * bufferFrames = sampleRate / (1000 / frameSize): the sample frames in one
   * 40 ms buffer, sampleRate / 25.
   */
  function BufferFrames(sampleRate: nat): (frames: real)
    ensures frames * 1000.0 == (sampleRate * FrameSizeMs) as real
    ensures frames * 25.0 == sampleRate as real
  {
    (sampleRate as real) / (1000.0 / (FrameSizeMs as real))
  }

  lemma BufferFramesAt48k()
    ensures BufferFrames(48000) == 1920.0
  {
  }

  /** bufferFrames is a whole number exactly when the rate is a multiple of 25. */
  lemma BufferFramesWhole(sampleRate: nat)
    ensures BufferFrames(sampleRate) == ((sampleRate / 25) as real) <==> sampleRate % 25 == 0
  {
    var q, m := sampleRate / 25, sampleRate % 25;
    assert sampleRate == 25 * q + m;
    assert BufferFrames(sampleRate) == (q as real) + (m as real) / 25.0;
  }

  /** RtAudio's 5512 Hz rate gives a fractional bufferFrames. */
  lemma BufferFramesFractional()
    ensures BufferFrames(5512) == 220.48
  {
  }

  /** The options passed to AudioInputStream and AudioOutputStream. */
  datatype StreamOptions = StreamOptions(
    api: int,
    deviceId: int,
    channels: nat,
    sampleRate: nat,
    bufferFrames: real,
    format: RtAudioFormat)

  /** AudioInputStream's options: the input device, 40 ms of audio per buffer. */
  function InputStreamOptions(p: Params): (o: StreamOptions)
    ensures o.api == p.api && o.sampleRate == p.sampleRate && o.format == p.format
    ensures o.deviceId == p.inputDev.id && o.channels == p.inputChannelNumber
    ensures o.bufferFrames == BufferFrames(p.sampleRate)
    ensures o.bufferFrames * 25.0 == o.sampleRate as real
  {
    StreamOptions(p.api, p.inputDev.id, p.inputChannelNumber, p.sampleRate, BufferFrames(p.sampleRate), p.format)
  }

  /** AudioOutputStream's options: the output device, 40 ms of audio per buffer. */
  function OutputStreamOptions(p: Params): (o: StreamOptions)
    ensures o.api == p.api && o.sampleRate == p.sampleRate && o.format == p.format
    ensures o.deviceId == p.outputDev.id && o.channels == p.outputChannelNumber
    ensures o.bufferFrames == BufferFrames(p.sampleRate)
    ensures o.bufferFrames * 25.0 == o.sampleRate as real
  {
    StreamOptions(p.api, p.outputDev.id, p.outputChannelNumber, p.sampleRate, BufferFrames(p.sampleRate), p.format)
  }

  /**
   * The two streams agree on API, sample rate, buffer size and format; they
   * differ only in device and channel count.
   */
  lemma DuplexStreamsAgree(p: Params)
    ensures var i, o := InputStreamOptions(p), OutputStreamOptions(p);
      i.api == o.api && i.sampleRate == o.sampleRate &&
      i.bufferFrames == o.bufferFrames && i.format == o.format &&
      i.bufferFrames * 1000.0 == (p.sampleRate * FrameSizeMs) as real &&
      i.deviceId == p.inputDev.id && i.channels == p.inputChannelNumber &&
      o.deviceId == p.outputDev.id && o.channels == p.outputChannelNumber
  {
  }

  /**
   * Streams opened after a round that collected parameters from offered
   * answers: mono capture, a channel count the output device has, and a
   * rate both devices list.
   */
  lemma CollectedStreamsFitDevices(api: int, devices: seq<Device>, a: Answers)
    requires AnswersOffered(devices, a)
    requires ParametersRound(api, devices, a).Collected?
    ensures var p := ParametersRound(api, devices, a).params;
      var i, o := InputStreamOptions(p), OutputStreamOptions(p);
      i.channels == 1 &&
      1 <= o.channels <= p.outputDev.outputChannels &&
      i.sampleRate in p.inputDev.sampleRates && o.sampleRate in p.outputDev.sampleRates &&
      i.bufferFrames == o.bufferFrames && i.bufferFrames * 25.0 == i.sampleRate as real
  {
    RoundOutcome(api, devices, a);
  }
}
