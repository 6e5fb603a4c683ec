/**
 * Audio configuration commands: sample rate, input device, volume, noise
 * reduction, buffer size, calibration, input test, device listing,
 * automatic gain control and the audio settings report.
 */
module AudioCommands {
  import opened Common
  import opened Regexes
  import opened VoiceTypes

  datatype Kind =
    | SetSampleRate | SwitchAudioDevice | AdjustVolume | EnableNoiseReduction | DisableNoiseReduction
    | SetBufferSize | CalibrateMicrophone | TestAudioInput | ShowAudioDevices | EnableAgc | DisableAgc
    | ShowAudioSettings

  /** The commands of this file in the order `register_audio_commands` registers them. */
  const Registered: seq<Kind> := [
    SetSampleRate, SwitchAudioDevice, AdjustVolume, EnableNoiseReduction, DisableNoiseReduction,
    SetBufferSize, CalibrateMicrophone, TestAudioInput, ShowAudioDevices, EnableAgc, DisableAgc,
    ShowAudioSettings]

  function Name(k: Kind): string
  {
    match k
    case SetSampleRate => "set_sample_rate"
    case SwitchAudioDevice => "switch_audio_device"
    case AdjustVolume => "adjust_volume"
    case EnableNoiseReduction => "enable_noise_reduction"
    case DisableNoiseReduction => "disable_noise_reduction"
    case SetBufferSize => "set_buffer_size"
    case CalibrateMicrophone => "calibrate_microphone"
    case TestAudioInput => "test_audio_input"
    case ShowAudioDevices => "show_audio_devices"
    case EnableAgc => "enable_agc"
    case DisableAgc => "disable_agc"
    case ShowAudioSettings => "show_audio_settings"
  }

  function Category(k: Kind): CommandCategory { Audio }

  function Patterns(k: Kind): seq<PatternType>
  {
    match k
    case SetSampleRate =>
      [Regex(Simple("set sample rate to ", Digits, "")), Regex(Simple("sample rate ", Digits, "")),
       Regex(Simple("change sample rate to ", Digits, "")), Regex(Simple("set rate to ", Digits, ""))]
    case SwitchAudioDevice =>
      [Regex(Simple("switch to device ", RestOfLine, "")), Regex(Simple("use device ", RestOfLine, "")),
       Regex(Simple("change device to ", RestOfLine, "")), Regex(Simple("select device ", RestOfLine, ""))]
    case AdjustVolume =>
      [Regex(Simple("set volume to ", Digits, "")), Regex(Simple("volume ", Digits, "")),
       Regex(Simple("adjust volume to ", Digits, "")), Regex(Simple("set gain to ", Digits, ""))]
    case EnableNoiseReduction =>
      Exacts(["enable noise reduction", "turn on noise reduction", "noise reduction on", "enable noise filter",
              "start noise reduction"])
    case DisableNoiseReduction =>
      Exacts(["disable noise reduction", "turn off noise reduction", "noise reduction off", "disable noise filter",
              "stop noise reduction"])
    case SetBufferSize =>
      [Regex(Simple("set buffer size to ", Digits, "")), Regex(Simple("buffer size ", Digits, "")),
       Regex(Simple("change buffer size to ", Digits, ""))]
    case CalibrateMicrophone =>
      Exacts(["calibrate microphone", "calibrate mic", "mic calibration", "auto calibrate", "calibrate audio"])
    case TestAudioInput =>
      Exacts(["test audio", "test microphone", "test mic", "audio test", "mic test", "test input"])
    case ShowAudioDevices =>
      Exacts(["show audio devices", "list audio devices", "available devices", "show devices", "list devices",
              "audio devices"])
    case EnableAgc =>
      Exacts(["enable automatic gain control", "enable agc", "turn on agc", "auto gain on", "enable auto gain"])
    case DisableAgc =>
      Exacts(["disable automatic gain control", "disable agc", "turn off agc", "auto gain off", "disable auto gain"])
    case ShowAudioSettings =>
      Exacts(["show audio settings", "audio settings", "current audio settings", "audio configuration"])
  }

  // ---------------------------------------------------------------------
  // Reading numbers out of the spoken text
  // ---------------------------------------------------------------------

  /** The number `rx` captures from `text`, when it fits below `limit` (the integer type's range). */
  function CapturedNumber(rx: Rx, text: string, limit: nat): (r: Option<nat>)
    requires rx.group == Digits
    ensures Capture(rx, text).None? ==> r.None?
    ensures Capture(rx, text).Some? ==>
      var c := Capture(rx, text).value;
      |c| > 0 && AllDigits(c) && (r.Some? <==> DigitsValue(c) < limit) && (r.Some? ==> r.value == DigitsValue(c))
  {
    match Capture(rx, text)
    case None => None
    case Some(c) =>
      CaptureShape(rx, text);
      ParseUnsigned(c, limit)
  }

  const SampleRateValue: Rx := Rx(["sample rate ", "rate "], ["to "], Digits, "")
  const ValidSampleRates: seq<nat> := [8000, 16000, 22050, 44100, 48000, 96000]

  const DeviceValue: Rx := Rx(["switch to device ", "use device "], [], RestOfLine, "")

  const VolumeValue: Rx := Rx(["volume ", "gain "], ["to "], Digits, "")

  const BufferSizeValue: Rx := Rx(["buffer size "], ["to "], Digits, "")
  const ValidBufferSizes: seq<nat> := [64, 128, 256, 512, 1024, 2048, 4096]

  // ---------------------------------------------------------------------
  // Handlers
  // ---------------------------------------------------------------------

  /** Sets the sample rate when the text names one of the supported rates. */
  function SampleRateSet(text: string, ctx: SystemContext): (o: Outcome)
    ensures var n := CapturedNumber(SampleRateValue, text, U32Limit);
      (o.result.Ok? <==> n.Some? && n.value in ValidSampleRates)
      && (o.result.Ok? ==>
            o.ctx == ctx.(audio := ctx.audio.(sample_rate := n.value))
            && o.result.value == SuccessWithData("Sample rate set to " + NatToString(n.value) + "Hz",
                                                 Number(n.value as real)))
      && (o.result.Err? ==> o.ctx == ctx)
      && (n.None? ==> o.result == Err(InvalidParameters("Could not parse sample rate")))
      && (n.Some? && n.value !in ValidSampleRates ==>
            o.result == Err(InvalidParameters("Invalid sample rate: " + NatToString(n.value)
                                              + ". Valid rates: 8000, 16000, 22050, 44100, 48000, 96000")))
  {
    match CapturedNumber(SampleRateValue, text, U32Limit)
    case None => Fail(InvalidParameters("Could not parse sample rate"), ctx)
    case Some(rate) =>
      if rate in ValidSampleRates then
        Done(SuccessWithData("Sample rate set to " + NatToString(rate) + "Hz", Number(rate as real)),
             ctx.(audio := ctx.audio.(sample_rate := rate)))
      else
        Fail(InvalidParameters("Invalid sample rate: " + NatToString(rate)
                               + ". Valid rates: 8000, 16000, 22050, 44100, 48000, 96000"), ctx)
  }

  /** Selects the input device the text names, with surrounding whitespace removed. */
  function DeviceSwitched(text: string, ctx: SystemContext): (o: Outcome)
    ensures o.result.Ok? <==> Capture(DeviceValue, text).Some?
    ensures o.result.Err? ==> o.ctx == ctx && o.result.error == InvalidParameters("Could not parse device name")
    ensures o.result.Ok? ==>
      var d := Trim(Capture(DeviceValue, text).value);
      Contains(text, d)
      && o.ctx == ctx.(audio := ctx.audio.(current_device := Some(d)))
      && o.result.value == SuccessWithData("Switched to audio device: " + d, Text(d))
  {
    match Capture(DeviceValue, text)
    case None => Fail(InvalidParameters("Could not parse device name"), ctx)
    case Some(c) =>
      var d := Trim(c);
      CaptureInText(DeviceValue, text);
      ContainsTrans(text, c, d);
      Done(SuccessWithData("Switched to audio device: " + d, Text(d)),
           ctx.(audio := ctx.audio.(current_device := Some(d))))
  }

  /** Reports a volume between 0 and 100 percent; the context is never written. */
  function VolumeAdjusted(text: string, ctx: SystemContext): (o: Outcome)
    ensures o.ctx == ctx
    ensures var n := CapturedNumber(VolumeValue, text, U8Limit);
      (o.result.Ok? <==> n.Some? && n.value <= 100)
      && (o.result.Ok? ==>
            o.result.value == SuccessWithData("Volume set to " + NatToString(n.value) + "%", Number(n.value as real)))
      && (n.None? ==> o.result == Err(InvalidParameters("Could not parse volume level")))
      && (n.Some? && n.value > 100 ==> o.result == Err(InvalidParameters("Volume must be between 0 and 100%")))
  {
    match CapturedNumber(VolumeValue, text, U8Limit)
    case None => Fail(InvalidParameters("Could not parse volume level"), ctx)
    case Some(v) =>
      if v <= 100 then Done(SuccessWithData("Volume set to " + NatToString(v) + "%", Number(v as real)), ctx)
      else Fail(InvalidParameters("Volume must be between 0 and 100%"), ctx)
  }

  /** Sets the buffer size when the text names one of the supported sizes. */
  function BufferSizeSet(text: string, ctx: SystemContext): (o: Outcome)
    ensures var n := CapturedNumber(BufferSizeValue, text, UsizeLimit);
      (o.result.Ok? <==> n.Some? && n.value in ValidBufferSizes)
      && (o.result.Ok? ==>
            o.ctx == ctx.(audio := ctx.audio.(buffer_size := n.value))
            && o.result.value == SuccessWithData("Buffer size set to " + NatToString(n.value) + " samples",
                                                 Number(n.value as real)))
      && (o.result.Err? ==> o.ctx == ctx)
      && (n.None? ==> o.result == Err(InvalidParameters("Could not parse buffer size")))
      && (n.Some? && n.value !in ValidBufferSizes ==>
            o.result == Err(InvalidParameters("Invalid buffer size. Valid sizes: 64, 128, 256, 512, 1024, 2048, 4096")))
  {
    match CapturedNumber(BufferSizeValue, text, UsizeLimit)
    case None => Fail(InvalidParameters("Could not parse buffer size"), ctx)
    case Some(size) =>
      if size in ValidBufferSizes then
        Done(SuccessWithData("Buffer size set to " + NatToString(size) + " samples", Number(size as real)),
             ctx.(audio := ctx.audio.(buffer_size := size)))
      else Fail(InvalidParameters("Invalid buffer size. Valid sizes: 64, 128, 256, 512, 1024, 2048, 4096"), ctx)
  }

  const DevicesText: string :=
    "Available Audio Devices:\n"
    + "\U{2022} Built-in Microphone (default)\n"
    + "\U{2022} USB Headset\n"
    + "\U{2022} Bluetooth Audio Device\n"
    + "\nUse 'switch to device [name]' to change input device."

  /** The audio settings report; it names the device "Default" when none is selected. */
  function AudioSettings(ctx: SystemContext): (r: CommandResult)
    ensures r.success && r.data.None?
    ensures StartsWith(r.message, "Audio Settings:\n")
    ensures var a := ctx.audio;
      var dev := if a.current_device.Some? then a.current_device.value else "Default";
      EndsWith(r.message, "\U{2022} Current Device: " + dev)
  {
    var a := ctx.audio;
    var dev := if a.current_device.Some? then a.current_device.value else "Default";
    var head :=
      "\U{2022} Sample Rate: " + NatToString(a.sample_rate) + "Hz\n"
      + "\U{2022} Channels: " + NatToString(a.channels) + "\n"
      + "\U{2022} Buffer Size: " + NatToString(a.buffer_size) + " samples\n"
      + "\U{2022} VAD Enabled: " + (if a.vad_enabled then "Yes" else "No") + "\n"
      + "\U{2022} Sensitivity: " + Fixed2(a.sensitivity) + "\n";
    var tail := "\U{2022} Current Device: " + dev;
    var message := "Audio Settings:\n" + (head + tail);
    StartsWithConcat("Audio Settings:\n", head + tail);
    assert "Audio Settings:\n" + (head + tail) == ("Audio Settings:\n" + head) + tail;
    EndsWithConcat("Audio Settings:\n" + head, tail);
    Success(message)
  }

  /** Runs an audio command on the context. */
  function Execute(k: Kind, params: CommandParams, ctx: SystemContext): (o: Outcome)
    ensures o.result.Err? ==> o.ctx == ctx && k in {SetSampleRate, SwitchAudioDevice, AdjustVolume, SetBufferSize}
    ensures o.result.Ok? ==> o.result.value.success
    ensures k !in {SetSampleRate, SwitchAudioDevice, SetBufferSize} ==> o.ctx == ctx
    ensures o.ctx.mode == ctx.mode && o.ctx.stt == ctx.stt
  {
    match k
    case SetSampleRate => SampleRateSet(params.text, ctx)
    case SwitchAudioDevice => DeviceSwitched(params.text, ctx)
    case AdjustVolume => VolumeAdjusted(params.text, ctx)
    case EnableNoiseReduction => Done(Success("Noise reduction enabled"), ctx)
    case DisableNoiseReduction => Done(Success("Noise reduction disabled"), ctx)
    case SetBufferSize => BufferSizeSet(params.text, ctx)
    case CalibrateMicrophone =>
      Done(Success("Microphone calibration started. Please speak normally for 10 seconds."), ctx)
    case TestAudioInput => Done(Success("Audio input test started. Speak now to test your microphone."), ctx)
    case ShowAudioDevices => Done(Success(DevicesText), ctx)
    case EnableAgc => Done(Success("Automatic gain control enabled"), ctx)
    case DisableAgc => Done(Success("Automatic gain control disabled"), ctx)
    case ShowAudioSettings => Done(AudioSettings(ctx), ctx)
  }

  // ---------------------------------------------------------------------
  // Properties
  // ---------------------------------------------------------------------

  /** The sample rate and the buffer size are both among the supported values. */
  predicate SupportedFormat(ctx: SystemContext)
  {
    ctx.audio.sample_rate in ValidSampleRates && ctx.audio.buffer_size in ValidBufferSizes
  }

  lemma DefaultFormatSupported(env: EnvironmentContext)
    ensures SupportedFormat(DefaultContext(env))
  {
  }

  /** No audio command can leave an unsupported sample rate or buffer size behind. */
  lemma ExecuteKeepsFormatSupported(k: Kind, params: CommandParams, ctx: SystemContext)
    requires SupportedFormat(ctx)
    ensures SupportedFormat(Execute(k, params, ctx).ctx)
  {
  }

  lemma NamesDistinct()
    ensures forall i, j :: 0 <= i < j < |Registered| ==> Name(Registered[i]) != Name(Registered[j])
  {
  }

  /** No alternative of the sample-rate expression starts before position 4 of the text. */
  lemma SampleRateExampleLead(t: string)
    requires |t| >= 4 && t[0] == 's' && t[1] == 'e' && t[2] == 't' && t[3] == ' '
    ensures forall j, i :: 0 <= j < 4 && 0 <= i < |SampleRateValue.alts| ==> !OccursAt(t, SampleRateValue.alts[i], j)
  {
    var a0 := "sample rate ";
    var a1 := "rate ";
    assert SampleRateValue.alts == [a0, a1];
    forall j, i | 0 <= j < 4 && 0 <= i < |SampleRateValue.alts|
      ensures !OccursAt(t, SampleRateValue.alts[i], j)
    {
      if i == 0 {
        if j == 0 { Mismatch(t, a0, 0, 1); } else { Mismatch(t, a0, j, 0); }
      } else {
        Mismatch(t, a1, j, 0);
      }
    }
  }

  lemma SampleRateExampleMatch(t: string)
    requires t == "set sample rate to 44100"
    ensures MatchAt(SampleRateValue, t, 4) == Some((19, 24))
  {
    assert OccursAt(t, "sample rate ", 4);
    assert OccursAt(t, "to ", 16);
    assert RunLength(Digits, t, 19) == 5;
    assert GroupAndSuffix(SampleRateValue, t, 19) == Some((19, 24)) by {
      assert OccursAt(t, "", 24);
    }
  }

  lemma Value44100()
    ensures DigitsValue("44100") == 44100 && NatToString(44100) == "44100"
  {
    assert DigitsValue("4") == 4;
    assert DigitsValue("44") == 44 by { assert "44"[..1] == "4"; }
    assert DigitsValue("441") == 441 by { assert "441"[..2] == "44"; }
    assert DigitsValue("4410") == 4410 by { assert "4410"[..3] == "441"; }
    assert DigitsValue("44100") == 44100 by { assert "44100"[..4] == "4410"; }
  }

  /** "set sample rate to 44100" sets the rate to 44100 and says so. */
  lemma SampleRateExample(ctx: SystemContext)
    ensures var o := SampleRateSet("set sample rate to 44100", ctx);
      o.result == Ok(SuccessWithData("Sample rate set to " + "44100" + "Hz", Number(44100.0)))
      && o.ctx == ctx.(audio := ctx.audio.(sample_rate := 44100))
  {
    SampleRateExampleNumber();
    Value44100();
  }

  lemma SampleRateExampleNumber()
    ensures CapturedNumber(SampleRateValue, "set sample rate to 44100", U32Limit) == Some(44100)
  {
    var t := "set sample rate to 44100";
    assert Capture(SampleRateValue, t) == Some("44100") by {
      SampleRateExampleMatch(t);
      SampleRateExampleLead(t);
      CaptureAt(SampleRateValue, t, 4);
      assert t[19..24] == "44100";
    }
    Value44100();
  }

  lemma DeviceExampleCapture(t: string)
    requires t == "switch to device usb headset"
    ensures Capture(DeviceValue, t) == Some("usb headset")
  {
    assert OccursAt(t, "switch to device ", 0);
    assert RunLength(RestOfLine, t, 17) == 11;
    assert GroupAndSuffix(DeviceValue, t, 17) == Some((17, 28)) by {
      assert OccursAt(t, "", 28);
    }
    assert MatchAt(DeviceValue, t, 0) == Some((17, 28));
    CaptureAt(DeviceValue, t, 0);
    assert t[17..28] == "usb headset";
  }

  /** "switch to device usb headset" selects the device "usb headset". */
  lemma DeviceExample(ctx: SystemContext)
    ensures DeviceSwitched("switch to device usb headset", ctx).ctx
      == ctx.(audio := ctx.audio.(current_device := Some("usb headset")))
  {
    DeviceExampleCapture("switch to device usb headset");
    TrimUsbHeadset();
  }

  lemma TrimUsbHeadset()
    ensures Trim("usb headset") == "usb headset"
  {
    var s := "usb headset";
    assert !IsSpace(s[0]) && !IsSpace(s[|s| - 1]);
    assert TrimStart(s) == s;
    assert TrimEnd(s) == s;
  }
}
