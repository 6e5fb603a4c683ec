/**
 * Speech-to-text control commands: model, language, punctuation,
 * confidence threshold, streaming, instant output, processing speed,
 * the settings report and a service restart.
 */
module SttCommands {
  import opened Common
  import opened Regexes
  import opened VoiceTypes

  datatype Kind =
    | SwitchModel | SetLanguage | EnablePunctuation | DisablePunctuation | SetConfidenceThreshold
    | ToggleStreaming | EnableInstantOutput | DisableInstantOutput | AdjustProcessingSpeed
    | ShowSttSettings | RestartSttService

  /** The commands of this file in the order `register_stt_commands` registers them. */
  const Registered: seq<Kind> := [
    SwitchModel, SetLanguage, EnablePunctuation, DisablePunctuation, SetConfidenceThreshold,
    ToggleStreaming, EnableInstantOutput, DisableInstantOutput, AdjustProcessingSpeed,
    ShowSttSettings, RestartSttService]

  function Name(k: Kind): string
  {
    match k
    case SwitchModel => "switch_model"
    case SetLanguage => "set_language"
    case EnablePunctuation => "enable_punctuation"
    case DisablePunctuation => "disable_punctuation"
    case SetConfidenceThreshold => "set_confidence_threshold"
    case ToggleStreaming => "toggle_streaming"
    case EnableInstantOutput => "enable_instant_output"
    case DisableInstantOutput => "disable_instant_output"
    case AdjustProcessingSpeed => "adjust_processing_speed"
    case ShowSttSettings => "show_stt_settings"
    case RestartSttService => "restart_stt_service"
  }

  function Category(k: Kind): CommandCategory { Stt }

  function Patterns(k: Kind): seq<PatternType>
  {
    match k
    case SwitchModel =>
      [Regex(Simple("switch to ", Word, " model")), Regex(Simple("use ", Word, " model")),
       Regex(Simple("load ", Word, " model")), Regex(Simple("change model to ", Word, "")),
       Regex(Simple("set model ", Word, ""))]
    case SetLanguage =>
      [Regex(Simple("set language to ", Word, "")), Regex(Simple("language ", Word, "")),
       Regex(Simple("change language to ", Word, "")), Regex(Simple("use ", Word, " language"))]
    case EnablePunctuation =>
      Exacts(["enable punctuation", "turn on punctuation", "punctuation on", "auto punctuation",
              "enable auto punctuation"])
    case DisablePunctuation =>
      Exacts(["disable punctuation", "turn off punctuation", "punctuation off", "no punctuation",
              "disable auto punctuation"])
    case SetConfidenceThreshold =>
      [Regex(Simple("set confidence threshold to ", Decimal, "")),
       Regex(Simple("confidence threshold ", Decimal, "")),
       Regex(Simple("set confidence to ", Decimal, ""))]
    case ToggleStreaming =>
      Exacts(["toggle streaming", "toggle streaming mode", "switch streaming mode", "streaming mode"])
    case EnableInstantOutput =>
      Exacts(["enable instant output", "instant output on", "enable instant paste", "direct paste on", "live output"])
    case DisableInstantOutput =>
      Exacts(["disable instant output", "instant output off", "disable instant paste", "clipboard mode",
              "clipboard output"])
    case AdjustProcessingSpeed =>
      [ContainsText("processing faster"), ContainsText("processing slower"), ContainsText("speed up processing"),
       ContainsText("slow down processing"), Exact("faster processing"), Exact("slower processing")]
    case ShowSttSettings =>
      Exacts(["show stt settings", "stt settings", "transcription settings", "stt configuration",
              "show transcription settings"])
    case RestartSttService =>
      Exacts(["restart stt", "restart stt service", "restart transcription", "reload stt"])
  }

  // ---------------------------------------------------------------------
  // Model
  // ---------------------------------------------------------------------

  const ModelValue: Rx := Rx(["switch to ", "use ", "load "], ["model "], Word, "")
  const ValidModels: seq<string> := ["tiny", "base", "small", "medium", "large"]

  /** Switches to the lowercased model the text names, when it is one of the five sizes. */
  function ModelSwitched(text: string, ctx: SystemContext): (o: Outcome)
    ensures var c := Capture(ModelValue, text);
      (o.result.Ok? <==> c.Some? && ToLower(c.value) in ValidModels)
      && (o.result.Ok? ==>
            o.ctx == ctx.(stt := ctx.stt.(current_model := ToLower(c.value)))
            && o.result.value == SuccessWithData("Switched to " + ToLower(c.value) + " model", Text(ToLower(c.value))))
      && (o.result.Err? ==> o.ctx == ctx)
      && (c.None? ==> o.result == Err(InvalidParameters("Could not parse model name")))
      && (c.Some? && ToLower(c.value) !in ValidModels ==>
            o.result == Err(InvalidParameters("Invalid model: " + ToLower(c.value)
                                              + ". Valid models: tiny, base, small, medium, large")))
  {
    match Capture(ModelValue, text)
    case None => Fail(InvalidParameters("Could not parse model name"), ctx)
    case Some(c) =>
      var model := ToLower(c);
      if model in ValidModels then
        Done(SuccessWithData("Switched to " + model + " model", Text(model)),
             ctx.(stt := ctx.stt.(current_model := model)))
      else Fail(InvalidParameters("Invalid model: " + model + ". Valid models: tiny, base, small, medium, large"), ctx)
  }

  // ---------------------------------------------------------------------
  // Language
  // ---------------------------------------------------------------------

  /** The language expression as written: a two-letter code is tried before the language names. */
  const LanguageValueAsWritten: Rx :=
    Rx(["language ", "lang "], ["to "],
       Choice([AnyTwoLower, Lit("english"), Lit("spanish"), Lit("french"), Lit("german"), Lit("auto")]), "")

  /** The language expression with the names tried before the two-letter code. */
  const LanguageValue: Rx :=
    Rx(["language ", "lang "], ["to "],
       Choice([Lit("english"), Lit("spanish"), Lit("french"), Lit("german"), Lit("auto"), AnyTwoLower]), "")

  /** The ISO code for a language name, a two-letter code itself, or "auto"; nothing for anything else. */
  function LanguageCode(language: string): (r: Option<string>)
    ensures r.Some? ==> |r.value| == 2 || r.value == "auto"
    ensures |language| == 2 ==> r == Some(language)
  {
    match language
    case "english" => Some("en")
    case "spanish" => Some("es")
    case "french" => Some("fr")
    case "german" => Some("de")
    case "auto" => Some("auto")
    case _ => if |language| == 2 then Some(language) else None
  }

  /** Sets the language the text asks for through `rx`; "auto" clears it (auto-detect). */
  function LanguageSetWith(rx: Rx, text: string, ctx: SystemContext): (o: Outcome)
    ensures var c := Capture(rx, text);
      (c.None? ==> o.ctx == ctx && o.result == Err(InvalidParameters("Could not parse language")))
      && (c.Some? && LanguageCode(ToLower(c.value)).None? ==>
            o.ctx == ctx && o.result == Err(InvalidParameters("Invalid language. Use language name or 2-letter code")))
      && (c.Some? && LanguageCode(ToLower(c.value)).Some? ==>
            var code := LanguageCode(ToLower(c.value)).value;
            o.ctx == ctx.(stt := ctx.stt.(language := if code == "auto" then None else Some(code)))
            && o.result == Ok(SuccessWithData(
                 "Language set to " + (if code == "auto" then "auto-detect" else code), Text(code))))
  {
    match Capture(rx, text)
    case None => Fail(InvalidParameters("Could not parse language"), ctx)
    case Some(c) =>
      match LanguageCode(ToLower(c))
      case None => Fail(InvalidParameters("Invalid language. Use language name or 2-letter code"), ctx)
      case Some(code) =>
        Done(SuccessWithData("Language set to " + (if code == "auto" then "auto-detect" else code), Text(code)),
             ctx.(stt := ctx.stt.(language := if code == "auto" then None else Some(code))))
  }

  /** The language handler as written. */
  function LanguageSetAsWritten(text: string, ctx: SystemContext): (o: Outcome)
    ensures o == LanguageSetWith(LanguageValueAsWritten, text, ctx)
    ensures o.result.Ok? ==> o.ctx.stt.language.Some? && |o.ctx.stt.language.value| == 2
  {
    var o := LanguageSetWith(LanguageValueAsWritten, text, ctx);
    LanguageAsWrittenNeverAuto(text);
    o
  }

  /** The language names, in the order both expressions list them. */
  const LanguageNames: seq<string> := ["english", "spanish", "french", "german", "auto"]

  lemma LanguageNamesShape()
    ensures forall i :: 0 <= i < |LanguageNames| ==>
      |LanguageNames[i]| >= 4 && NoUpper(LanguageNames[i]) && IsLower(LanguageNames[i][0]) && IsLower(LanguageNames[i][1])
    ensures forall i :: 0 <= i < |LanguageNames| ==> LanguageCode(LanguageNames[i]).Some?
  {
  }

  /** A literal piece that matches the whole of `c` is `c`. */
  lemma LitWhole(c: string, s: string)
    requires OccursAt(c, s, 0) && |c| == |s|
    ensures c == s
  {
    assert c == c[0..|s|];
  }

  /** Pieces that are literals made of lowercase letters, at least two of them. */
  predicate LowerLits(ps: seq<Piece>)
  {
    forall i :: 0 <= i < |ps| ==>
      ps[i].Lit? && |ps[i].text| >= 2 && NoUpper(ps[i].text) && IsLower(ps[i].text[0]) && IsLower(ps[i].text[1])
  }

  lemma LanguagePieces()
    ensures LanguageValueAsWritten.group.pieces == [AnyTwoLower] + seq(5, i requires 0 <= i < 5 => Lit(LanguageNames[i]))
    ensures LanguageValue.group.pieces == seq(5, i requires 0 <= i < 5 => Lit(LanguageNames[i])) + [AnyTwoLower]
    ensures LowerLits(seq(5, i requires 0 <= i < 5 => Lit(LanguageNames[i])))
  {
  }

  /** When a two-letter code is tried before lowercase literals, every capture is two lowercase letters. */
  lemma CodeFirstCapture(rx: Rx, text: string)
    requires rx.group.Choice? && |rx.group.pieces| > 0 && rx.group.pieces[0] == AnyTwoLower
    requires LowerLits(rx.group.pieces[1..])
    requires Capture(rx, text).Some?
    ensures var c := Capture(rx, text).value; |c| == 2 && NoUpper(c)
  {
    var c := Capture(rx, text).value;
    CaptureShape(rx, text);
    var ps := rx.group.pieces;
    var k :| 0 <= k < |ps| && PieceAt(ps[k], c, 0) && |c| == PieceLength(ps[k])
             && forall j :: 0 <= j < k ==> !PieceAt(ps[j], c, 0);
    assert forall i :: 1 <= i < |ps| ==> ps[i] == ps[1..][i - 1];
    forall i | 1 <= i < |ps| && PieceAt(ps[i], c, 0) ensures PieceAt(ps[0], c, 0) {
      var s := ps[i].text;
      assert c[0] == s[0] && c[1] == s[1];
    }
  }

  /** When lowercase literals are tried before a two-letter code, a capture is one of the literals or two lowercase letters. */
  lemma CodeLastCapture(rx: Rx, text: string)
    requires rx.group.Choice? && |rx.group.pieces| > 0 && rx.group.pieces[|rx.group.pieces| - 1] == AnyTwoLower
    requires LowerLits(rx.group.pieces[..|rx.group.pieces| - 1])
    requires Capture(rx, text).Some?
    ensures var c := Capture(rx, text).value;
      NoUpper(c) && ((|c| == 2 && IsLower(c[0]) && IsLower(c[1]))
                     || exists i :: 0 <= i < |rx.group.pieces| - 1 && c == rx.group.pieces[i].text)
  {
    var c := Capture(rx, text).value;
    CaptureShape(rx, text);
    var ps := rx.group.pieces;
    var k :| 0 <= k < |ps| && PieceAt(ps[k], c, 0) && |c| == PieceLength(ps[k]);
    if k < |ps| - 1 {
      assert ps[k] == ps[..|ps| - 1][k];
      LitWhole(c, ps[k].text);
    }
  }

  /** With the code tried first, every capture is two letters long, so "auto" and the names are never seen. */
  lemma LanguageAsWrittenNeverAuto(text: string)
    ensures Capture(LanguageValueAsWritten, text).Some? ==>
      var c := Capture(LanguageValueAsWritten, text).value;
      |c| == 2 && ToLower(c) == c && LanguageCode(c) == Some(c)
  {
    if Capture(LanguageValueAsWritten, text).Some? {
      LanguagePieces();
      CodeFirstCapture(LanguageValueAsWritten, text);
      ToLowerIdentity(Capture(LanguageValueAsWritten, text).value);
    }
  }

  /** The language handler with the names tried first. */
  function LanguageSet(text: string, ctx: SystemContext): (o: Outcome)
    ensures o == LanguageSetWith(LanguageValue, text, ctx)
    ensures o.result.Ok? <==> Capture(LanguageValue, text).Some?
    ensures o.result.Ok? ==> o.ctx.stt.language.None? || |o.ctx.stt.language.value| == 2
  {
    var o := LanguageSetWith(LanguageValue, text, ctx);
    LanguageCaptureKnown(text);
    o
  }

  /** Whatever the corrected expression captures is a name, "auto" or a lowercase code. */
  lemma LanguageCaptureKnown(text: string)
    ensures Capture(LanguageValue, text).Some? ==>
      var c := Capture(LanguageValue, text).value;
      ToLower(c) == c && LanguageCode(c).Some?
  {
    if Capture(LanguageValue, text).Some? {
      var c := Capture(LanguageValue, text).value;
      LanguagePieces();
      CodeLastCapture(LanguageValue, text);
      LanguageNamesShape();
      ToLowerIdentity(c);
      if |c| != 2 {
        var i :| 0 <= i < 5 && c == LanguageValue.group.pieces[i].text;
        assert c == LanguageNames[i];
      }
    }
  }

  // ---------------------------------------------------------------------
  // Confidence threshold
  // ---------------------------------------------------------------------

  const ThresholdValue: Rx := Rx(["confidence "], ["threshold ", "to "], Decimal, "")

  /** The threshold the text asks for, when it can be read. */
  function RequestedThreshold(text: string): (r: Option<real>)
    ensures r.Some? ==> Capture(ThresholdValue, text).Some? && r.value >= 0.0
  {
    match Capture(ThresholdValue, text)
    case None => None
    case Some(c) =>
      CaptureShape(ThresholdValue, text);
      ParseDecimal(c)
  }

  /** Sets the confidence threshold when the requested value lies within [0, 1]. */
  function ThresholdSet(text: string, ctx: SystemContext): (o: Outcome)
    ensures var v := RequestedThreshold(text);
      (o.result.Ok? <==> v.Some? && v.value <= 1.0)
      && (o.result.Ok? ==>
            o.ctx == ctx.(stt := ctx.stt.(confidence_threshold := v.value))
            && o.result.value == SuccessWithData("Confidence threshold set to " + Fixed2(v.value), Number(v.value)))
      && (o.result.Err? ==> o.ctx == ctx)
      && (v.None? ==> o.result == Err(InvalidParameters("Could not parse confidence threshold")))
      && (v.Some? && v.value > 1.0 ==>
            o.result == Err(InvalidParameters("Confidence threshold must be between 0.0 and 1.0")))
  {
    match RequestedThreshold(text)
    case None => Fail(InvalidParameters("Could not parse confidence threshold"), ctx)
    case Some(t) =>
      if 0.0 <= t <= 1.0 then
        Done(SuccessWithData("Confidence threshold set to " + Fixed2(t), Number(t)),
             ctx.(stt := ctx.stt.(confidence_threshold := t)))
      else Fail(InvalidParameters("Confidence threshold must be between 0.0 and 1.0"), ctx)
  }

  // ---------------------------------------------------------------------
  // The other handlers
  // ---------------------------------------------------------------------

  function WithInstantOutput(ctx: SystemContext, on: bool): (o: Outcome)
    ensures o.ctx == ctx.(stt := ctx.stt.(instant_output := on))
    ensures o.result == Ok(Success(if on then "Instant output enabled - text will be pasted directly"
                                   else "Instant output disabled - text will be saved to clipboard"))
  {
    Done(Success(if on then "Instant output enabled - text will be pasted directly"
                 else "Instant output disabled - text will be saved to clipboard"),
         ctx.(stt := ctx.stt.(instant_output := on)))
  }

  /** Faster when the text asks to speed up, slower when it asks to slow down, an error otherwise. */
  function SpeedAdjusted(text: string, ctx: SystemContext): (o: Outcome)
    ensures o.ctx == ctx
    ensures var faster := Contains(text, "faster") || Contains(text, "speed up");
      var slower := Contains(text, "slower") || Contains(text, "slow down");
      (faster ==> o.result == Ok(Success("STT processing speed increased")))
      && (!faster && slower ==> o.result == Ok(Success("STT processing speed decreased")))
      && (!faster && !slower ==> o.result == Err(InvalidParameters("Specify 'faster' or 'slower'")))
  {
    if Contains(text, "faster") || Contains(text, "speed up") then Done(Success("STT processing speed increased"), ctx)
    else if Contains(text, "slower") || Contains(text, "slow down") then
      Done(Success("STT processing speed decreased"), ctx)
    else Fail(InvalidParameters("Specify 'faster' or 'slower'"), ctx)
  }

  /** The speech-to-text settings report; an unset language reads "Auto-detect". */
  function SttSettings(ctx: SystemContext): (r: CommandResult)
    ensures r.success && r.data.None?
    ensures StartsWith(r.message, "STT Settings:\n")
    ensures EndsWith(r.message, "\U{2022} Processing Queue: " + NatToString(ctx.stt.processing_queue_size) + " items")
  {
    var s := ctx.stt;
    var head :=
      "\U{2022} Current Model: " + s.current_model + "\n"
      + "\U{2022} Language: " + (if s.language.Some? then s.language.value else "Auto-detect") + "\n"
      + "\U{2022} Instant Output: " + (if s.instant_output then "Enabled" else "Disabled") + "\n"
      + "\U{2022} Confidence Threshold: " + Fixed2(s.confidence_threshold) + "\n";
    var tail := "\U{2022} Processing Queue: " + NatToString(s.processing_queue_size) + " items";
    var message := "STT Settings:\n" + (head + tail);
    StartsWithConcat("STT Settings:\n", head + tail);
    assert "STT Settings:\n" + (head + tail) == ("STT Settings:\n" + head) + tail;
    EndsWithConcat("STT Settings:\n" + head, tail);
    Success(message)
  }

  /** Runs a speech-to-text command on the context. */
  function Execute(k: Kind, params: CommandParams, ctx: SystemContext): (o: Outcome)
    ensures o.result.Err? ==> o.ctx == ctx && k in {SwitchModel, SetLanguage, SetConfidenceThreshold, AdjustProcessingSpeed}
    ensures o.result.Ok? ==> o.result.value.success
    ensures k !in {SwitchModel, SetLanguage, SetConfidenceThreshold, EnableInstantOutput, DisableInstantOutput} ==>
      o.ctx == ctx
    ensures o.ctx.mode == ctx.mode && o.ctx.audio == ctx.audio
  {
    match k
    case SwitchModel => ModelSwitched(params.text, ctx)
    case SetLanguage => LanguageSetAsWritten(params.text, ctx)
    case EnablePunctuation => Done(Success("Automatic punctuation enabled"), ctx)
    case DisablePunctuation => Done(Success("Automatic punctuation disabled"), ctx)
    case SetConfidenceThreshold => ThresholdSet(params.text, ctx)
    case ToggleStreaming => Done(Success("Streaming mode toggled"), ctx)
    case EnableInstantOutput => WithInstantOutput(ctx, true)
    case DisableInstantOutput => WithInstantOutput(ctx, false)
    case AdjustProcessingSpeed => SpeedAdjusted(params.text, ctx)
    case ShowSttSettings => Done(SttSettings(ctx), ctx)
    case RestartSttService => Done(Success("STT service restarted"), ctx)
  }

  // ---------------------------------------------------------------------
  // Properties
  // ---------------------------------------------------------------------

  /** A supported model, a two-letter language code or none, and a threshold within [0, 1]. */
  predicate SttSettingsValid(ctx: SystemContext)
  {
    ctx.stt.current_model in ValidModels
    && (ctx.stt.language.None? || |ctx.stt.language.value| == 2)
    && 0.0 <= ctx.stt.confidence_threshold <= 1.0
  }

  lemma DefaultSttSettingsValid(env: EnvironmentContext)
    ensures SttSettingsValid(DefaultContext(env))
  {
  }

  /** Every speech-to-text command keeps the settings valid. */
  lemma ExecuteKeepsSttSettingsValid(k: Kind, params: CommandParams, ctx: SystemContext)
    requires SttSettingsValid(ctx)
    ensures SttSettingsValid(Execute(k, params, ctx).ctx)
  {
    if k == SetConfidenceThreshold {
      assert RequestedThreshold(params.text).Some? ==> RequestedThreshold(params.text).value >= 0.0;
    }
  }

  /** Enabling or disabling instant output a second time changes nothing more. */
  lemma InstantOutputIdempotent(params: CommandParams, ctx: SystemContext)
    ensures var c1 := Execute(EnableInstantOutput, params, ctx).ctx; Execute(EnableInstantOutput, params, c1).ctx == c1
    ensures var c2 := Execute(DisableInstantOutput, params, ctx).ctx; Execute(DisableInstantOutput, params, c2).ctx == c2
  {
  }

  lemma NamesDistinct()
    ensures forall i, j :: 0 <= i < j < |Registered| ==> Name(Registered[i]) != Name(Registered[j])
  {
  }

  // ---------------------------------------------------------------------
  // Worked examples
  // ---------------------------------------------------------------------

  lemma LanguageSpanishCaptureAsWritten(t: string)
    requires t == "language spanish"
    ensures Capture(LanguageValueAsWritten, t) == Some("sp")
  {
    assert OccursAt(t, "language ", 0);
    Mismatch(t, "to ", 9, 0);
    assert ChoiceAt(LanguageValueAsWritten.group.pieces, t, 9) == Some(11);
    assert GroupAndSuffix(LanguageValueAsWritten, t, 9) == Some((9, 11)) by {
      assert OccursAt(t, "", 11);
    }
    assert MatchAt(LanguageValueAsWritten, t, 0) == Some((9, 11));
    CaptureAt(LanguageValueAsWritten, t, 0);
    assert t[9..11] == "sp";
  }

  /** As written, "language spanish" sets the language code "sp" instead of "es". */
  lemma LanguageSpanishAsWritten(t: string, ctx: SystemContext)
    requires t == "language spanish"
    ensures LanguageSetAsWritten(t, ctx).ctx.stt.language == Some("sp")
  {
    LanguageSpanishCaptureAsWritten(t);
    ToLowerIdentity("sp");
  }

  lemma LanguageSpanishCapture(t: string)
    requires t == "language spanish"
    ensures Capture(LanguageValue, t) == Some("spanish")
  {
    assert OccursAt(t, "language ", 0);
    Mismatch(t, "to ", 9, 0);
    Mismatch(t, "english", 9, 0);
    assert OccursAt(t, "spanish", 9);
    assert ChoiceAt(LanguageValue.group.pieces, t, 9) == Some(16);
    assert GroupAndSuffix(LanguageValue, t, 9) == Some((9, 16)) by {
      assert OccursAt(t, "", 16);
    }
    assert MatchAt(LanguageValue, t, 0) == Some((9, 16));
    CaptureAt(LanguageValue, t, 0);
    assert t[9..16] == "spanish";
  }

  /** With the names tried first, "language spanish" sets the code "es". */
  lemma LanguageSpanish(t: string, ctx: SystemContext)
    requires t == "language spanish"
    ensures LanguageSet(t, ctx).ctx == ctx.(stt := ctx.stt.(language := Some("es")))
  {
    LanguageSpanishCapture(t);
    SpanishCode();
  }

  lemma SpanishCode()
    ensures LanguageCode(ToLower("spanish")) == Some("es")
  {
    ToLowerIdentity("spanish");
  }

  lemma ModelLargeCapture(t: string)
    requires t == "switch to large model"
    ensures Capture(ModelValue, t) == Some("large")
  {
    assert OccursAt(t, "switch to ", 0);
    Mismatch(t, "model ", 10, 0);
    assert RunLength(Word, t, 15) == 0;
    assert RunLength(Word, t, 13) == 2;
    assert RunLength(Word, t, 10) == 5;
    assert GroupAndSuffix(ModelValue, t, 10) == Some((10, 15)) by {
      assert OccursAt(t, "", 15);
    }
    assert MatchAt(ModelValue, t, 0) == Some((10, 15));
    CaptureAt(ModelValue, t, 0);
    assert t[10..15] == "large";
  }

  /** "switch to large model" selects the large model. */
  lemma ModelLarge(t: string, ctx: SystemContext)
    requires t == "switch to large model"
    ensures ModelSwitched(t, ctx).ctx == ctx.(stt := ctx.stt.(current_model := "large"))
  {
    ModelLargeCapture(t);
    ToLowerIdentity("large");
  }
}
