/**
 * The essential voice commands: voice activity detection on and off,
 * sensitivity steps and a set value, the instant-output toggle, narration
 * mode, the status report and the help text.
 */
module BasicCommands {
  import opened Common
  import opened Regexes
  import opened VoiceTypes

  datatype Kind =
    | EnableVad | DisableVad | IncreaseSensitivity | DecreaseSensitivity | SetSensitivity
    | ToggleInstantOutput | EnableNarration | DisableNarration | ShowStatus | ShowHelp

  /** The commands of this file in the order the basic registry registers them. */
  const Registered: seq<Kind> := [
    EnableVad, DisableVad, IncreaseSensitivity, DecreaseSensitivity, SetSensitivity,
    ToggleInstantOutput, EnableNarration, DisableNarration, ShowStatus, ShowHelp]

  function Name(k: Kind): string
  {
    match k
    case EnableVad => "enable_vad"
    case DisableVad => "disable_vad"
    case IncreaseSensitivity => "increase_sensitivity"
    case DecreaseSensitivity => "decrease_sensitivity"
    case SetSensitivity => "set_sensitivity"
    case ToggleInstantOutput => "toggle_instant_output"
    case EnableNarration => "enable_narration"
    case DisableNarration => "disable_narration"
    case ShowStatus => "show_status"
    case ShowHelp => "show_help"
  }

  function Category(k: Kind): CommandCategory
  {
    match k
    case EnableVad | DisableVad | IncreaseSensitivity | DecreaseSensitivity | SetSensitivity => Audio
    case ToggleInstantOutput | EnableNarration | DisableNarration => Stt
    case ShowStatus => System
    case ShowHelp => CommandCategory.Help
  }

  function Patterns(k: Kind): seq<PatternType>
  {
    match k
    case EnableVad =>
      Exacts(["enable vad", "enable the vad", "turn on vad", "turn vad on", "start vad", "voice on", "vad on"])
    case DisableVad =>
      Exacts(["disable vad", "disable the vad", "turn off vad", "turn vad off", "stop vad", "voice off", "vad off"])
    case IncreaseSensitivity =>
      Exacts(["increase sensitivity", "raise sensitivity", "more sensitive", "turn up sensitivity", "higher sensitivity"])
    case DecreaseSensitivity =>
      Exacts(["decrease sensitivity", "lower sensitivity", "less sensitive", "turn down sensitivity", "reduce sensitivity"])
    case SetSensitivity =>
      [Regex(Simple("set sensitivity to ", DigitsDots, "")),
       Regex(Simple("sensitivity ", DigitsDots, "")),
       Regex(Simple("adjust sensitivity to ", DigitsDots, ""))]
    case ToggleInstantOutput =>
      Exacts(["toggle instant", "toggle instant output", "toggle paste mode", "paste mode", "switch output mode"])
    case EnableNarration =>
      Exacts(["enable narration", "enter narration mode", "start narration", "dictation on", "start dictation", "continuous mode"])
    case DisableNarration =>
      Exacts(["disable narration", "exit narration mode", "stop narration", "dictation off", "stop dictation", "normal mode"])
    case ShowStatus =>
      Exacts(["show status", "system status", "status", "show system status", "what's the status", "current status"])
    case ShowHelp =>
      Exacts(["help", "show help", "what can I say", "available commands", "list commands", "show commands"])
  }

  // ---------------------------------------------------------------------
  // Handlers
  // ---------------------------------------------------------------------

  function WithVad(ctx: SystemContext, on: bool): (o: Outcome)
    ensures o.result.Ok? && o.result.value.success && o.result.value.data.None?
    ensures o.ctx.audio.vad_enabled == on
    ensures o.ctx == ctx.(audio := ctx.audio.(vad_enabled := on))
    ensures o.result.value.message == "Voice Activity Detection " + (if on then "enabled" else "disabled")
  {
    Done(Success("Voice Activity Detection " + (if on then "enabled" else "disabled")),
         ctx.(audio := ctx.audio.(vad_enabled := on)))
  }

  const Step: real := 0.05

  function SensitivityIncreased(ctx: SystemContext): (o: Outcome)
    ensures var s := ctx.audio.sensitivity; var s' := o.ctx.audio.sensitivity;
      (s <= 1.0 - Step ==> s' == s + Step) && (s > 1.0 - Step ==> s' == 1.0)
      && s' <= 1.0 && (s <= 1.0 ==> s <= s')
    ensures o.ctx == ctx.(audio := ctx.audio.(sensitivity := o.ctx.audio.sensitivity))
    ensures o.result == Ok(SuccessWithData(
      "Sensitivity increased from " + Fixed2(ctx.audio.sensitivity) + " to " + Fixed2(o.ctx.audio.sensitivity),
      Number(o.ctx.audio.sensitivity)))
  {
    var old_s := ctx.audio.sensitivity;
    var s := MinReal(old_s + Step, 1.0);
    Done(SuccessWithData("Sensitivity increased from " + Fixed2(old_s) + " to " + Fixed2(s), Number(s)),
         ctx.(audio := ctx.audio.(sensitivity := s)))
  }

  function SensitivityDecreased(ctx: SystemContext): (o: Outcome)
    ensures var s := ctx.audio.sensitivity; var s' := o.ctx.audio.sensitivity;
      (s >= Step ==> s' == s - Step) && (s < Step ==> s' == 0.0)
      && s' >= 0.0 && (s >= 0.0 ==> s' <= s)
    ensures o.ctx == ctx.(audio := ctx.audio.(sensitivity := o.ctx.audio.sensitivity))
    ensures o.result == Ok(SuccessWithData(
      "Sensitivity decreased from " + Fixed2(ctx.audio.sensitivity) + " to " + Fixed2(o.ctx.audio.sensitivity),
      Number(o.ctx.audio.sensitivity)))
  {
    var old_s := ctx.audio.sensitivity;
    var s := MaxReal(old_s - Step, 0.0);
    Done(SuccessWithData("Sensitivity decreased from " + Fixed2(old_s) + " to " + Fixed2(s), Number(s)),
         ctx.(audio := ctx.audio.(sensitivity := s)))
  }

  /** The expression the set-sensitivity handler extracts its value with. */
  const SensitivityValue: Rx := Simple("sensitivity to ", DigitsDots, "")

  /** The sensitivity the text asks for, before clamping, when it can be read. */
  function RequestedSensitivity(text: string): Option<real>
  {
    match Capture(SensitivityValue, text)
    case None => None
    case Some(c) =>
      CaptureShape(SensitivityValue, text);
      ParseDecimal(c)
  }

  function SensitivitySet(text: string, ctx: SystemContext): (o: Outcome)
    ensures RequestedSensitivity(text).None? <==> o.result.Err?
    ensures o.result.Err? ==>
      o.ctx == ctx && o.result.error == InvalidParameters("Could not parse sensitivity value")
    ensures o.result.Ok? ==>
      var v := Clamp(RequestedSensitivity(text).value, 0.0, 1.0);
      o.ctx == ctx.(audio := ctx.audio.(sensitivity := v))
      && 0.0 <= v <= 1.0
      && o.result.value == SuccessWithData(
           "Sensitivity set from " + Fixed2(ctx.audio.sensitivity) + " to " + Fixed2(v), Number(v))
  {
    match RequestedSensitivity(text)
    case None => Fail(InvalidParameters("Could not parse sensitivity value"), ctx)
    case Some(value) =>
      var v := Clamp(value, 0.0, 1.0);
      Done(SuccessWithData("Sensitivity set from " + Fixed2(ctx.audio.sensitivity) + " to " + Fixed2(v), Number(v)),
           ctx.(audio := ctx.audio.(sensitivity := v)))
  }

  function InstantOutputToggled(ctx: SystemContext): (o: Outcome)
    ensures o.ctx.stt.instant_output == !ctx.stt.instant_output
    ensures o.ctx == ctx.(stt := ctx.stt.(instant_output := !ctx.stt.instant_output))
    ensures o.result == Ok(SuccessWithData(
      "Instant output " + (if o.ctx.stt.instant_output then "enabled" else "disabled"),
      Boolean(o.ctx.stt.instant_output)))
  {
    var on := !ctx.stt.instant_output;
    Done(SuccessWithData("Instant output " + (if on then "enabled" else "disabled"), Boolean(on)),
         ctx.(stt := ctx.stt.(instant_output := on)))
  }

  function WithMode(ctx: SystemContext, m: SystemMode, message: string): (o: Outcome)
    ensures o.ctx == ctx.(mode := m) && o.result == Ok(Success(message))
  {
    Done(Success(message), ctx.(mode := m))
  }

  function OnOff(b: bool, yes: string, no: string): string { if b then yes else no }

  /** The status report: mode, voice detection, sensitivity, output mode and model. */
  function StatusReport(ctx: SystemContext): (r: CommandResult)
    ensures r.success && r.data.Some? && r.data.value.Object?
    ensures var f := r.data.value.fields;
      f.Keys == {"mode", "vad_enabled", "sensitivity", "instant_output", "current_model"}
      && f["mode"] == JString(ModeName(ctx.mode))
      && f["vad_enabled"] == JBool(ctx.audio.vad_enabled)
      && f["sensitivity"] == JNumber(ctx.audio.sensitivity)
      && f["instant_output"] == JBool(ctx.stt.instant_output)
      && f["current_model"] == JString(ctx.stt.current_model)
    ensures StartsWith(r.message, "System Status:\n")
  {
    var fields := map[
      "mode" := JString(ModeName(ctx.mode)),
      "vad_enabled" := JBool(ctx.audio.vad_enabled),
      "sensitivity" := JNumber(ctx.audio.sensitivity),
      "instant_output" := JBool(ctx.stt.instant_output),
      "current_model" := JString(ctx.stt.current_model)];
    var rest :=
      "\U{2022} Mode: " + ModeName(ctx.mode) + "\n"
      + "\U{2022} VAD: " + OnOff(ctx.audio.vad_enabled, "enabled", "disabled") + "\n"
      + "\U{2022} Sensitivity: " + Fixed2(ctx.audio.sensitivity) + "\n"
      + "\U{2022} Output: " + OnOff(ctx.stt.instant_output, "instant", "clipboard") + "\n"
      + "\U{2022} Model: " + ctx.stt.current_model;
    var message := "System Status:\n" + rest;
    StartsWithConcat("System Status:\n", rest);
    SuccessWithData(message, Object(fields))
  }

  const HelpText: string :=
    "Available Voice Commands:\n"
    + "\U{2022} 'enable vad' / 'disable vad' - Control voice detection\n"
    + "\U{2022} 'increase sensitivity' / 'decrease sensitivity' - Adjust sensitivity\n"
    + "\U{2022} 'set sensitivity to X' - Set specific sensitivity (0.0-1.0)\n"
    + "\U{2022} 'toggle instant output' - Switch output modes\n"
    + "\U{2022} 'enable narration' / 'disable narration' - Continuous dictation\n"
    + "\U{2022} 'show status' - Display system status\n"
    + "\U{2022} 'help' - Show this help message\n"
    + "\n"
    + "Say 'help [command name]' for detailed help on specific commands."

  /** Runs a basic command on the context. */
  function Execute(k: Kind, params: CommandParams, ctx: SystemContext): (o: Outcome)
    ensures o.result.Err? ==> o.ctx == ctx && k == SetSensitivity
    ensures o.result.Ok? ==> o.result.value.success
    ensures k in {ShowStatus, ShowHelp} ==> o.ctx == ctx
  {
    match k
    case EnableVad => WithVad(ctx, true)
    case DisableVad => WithVad(ctx, false)
    case IncreaseSensitivity => SensitivityIncreased(ctx)
    case DecreaseSensitivity => SensitivityDecreased(ctx)
    case SetSensitivity => SensitivitySet(params.text, ctx)
    case ToggleInstantOutput => InstantOutputToggled(ctx)
    case EnableNarration => WithMode(ctx, Narration, "Continuous narration mode enabled")
    case DisableNarration => WithMode(ctx, Normal, "Continuous narration mode disabled")
    case ShowStatus => Done(StatusReport(ctx), ctx)
    case ShowHelp => Done(Success(HelpText), ctx)
  }

  // ---------------------------------------------------------------------
  // Properties
  // ---------------------------------------------------------------------

  predicate SensitivityInRange(ctx: SystemContext) { 0.0 <= ctx.audio.sensitivity <= 1.0 }

  /** Every basic command keeps the sensitivity within [0, 1]. */
  lemma ExecuteKeepsSensitivityInRange(k: Kind, params: CommandParams, ctx: SystemContext)
    requires SensitivityInRange(ctx)
    ensures SensitivityInRange(Execute(k, params, ctx).ctx)
  {
  }

  /** Toggling instant output twice restores the context. */
  lemma ToggleTwiceRestores(params: CommandParams, ctx: SystemContext)
    ensures Execute(ToggleInstantOutput, params, Execute(ToggleInstantOutput, params, ctx).ctx).ctx == ctx
  {
  }

  /** Turning voice detection on (or off) a second time changes nothing more. */
  lemma VadIdempotent(params: CommandParams, ctx: SystemContext)
    ensures var c1 := Execute(EnableVad, params, ctx).ctx; Execute(EnableVad, params, c1).ctx == c1
    ensures var c2 := Execute(DisableVad, params, ctx).ctx; Execute(DisableVad, params, c2).ctx == c2
  {
  }

  /** Decreasing undoes increasing whenever neither step hits a bound. */
  lemma IncreaseThenDecrease(params: CommandParams, ctx: SystemContext)
    requires Step <= ctx.audio.sensitivity <= 1.0 - Step
    ensures Execute(DecreaseSensitivity, params, Execute(IncreaseSensitivity, params, ctx).ctx).ctx == ctx
  {
  }

  /** Enabling narration and then disabling it returns to normal mode with nothing else changed. */
  lemma NarrationRoundTrip(params: CommandParams, ctx: SystemContext)
    requires ctx.mode == Normal
    ensures Execute(DisableNarration, params, Execute(EnableNarration, params, ctx).ctx).ctx == ctx
  {
  }

  lemma NamesDistinct()
    ensures forall i, j :: 0 <= i < j < |Registered| ==> Name(Registered[i]) != Name(Registered[j])
  {
  }

  /** "sensitivity to 0.7" asks for 0.7. */
  lemma SetSensitivityExample()
    ensures RequestedSensitivity("sensitivity to 0.7") == Some(0.7)
  {
    SensitivityCaptureExample("sensitivity to 0.7");
    DecimalExample("0.7");
  }

  lemma SensitivityCaptureExample(t: string)
    requires t == "sensitivity to 0.7"
    ensures Capture(SensitivityValue, t) == Some("0.7")
  {
    assert OccursAt(t, "sensitivity to ", 0);
    assert RunLength(DigitsDots, t, 15) == 3;
    CaptureSimple(SensitivityValue, t, 0, 18);
    assert t[15..18] == "0.7";
  }

  lemma DecimalExample(d: string)
    requires d == "0.7"
    ensures ParseDecimal(d) == Some(0.7)
  {
    Mismatch(d, ".", 0, 0);
    assert OccursAt(d, ".", 1);
    FindFromFirst(d, ".", 1);
    assert d[..1] == "0" && d[2..] == "7";
    assert DigitsValue("0") == 0 && DigitsValue("7") == 7;
  }
}
