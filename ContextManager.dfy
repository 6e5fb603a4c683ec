/**
 * The command context manager: a bounded history of executed commands,
 * session variables mirrored from the system context, learned usage
 * (per-command frequency, per-hour usage, command-to-command transition
 * probabilities), disambiguation rules kept in descending priority, and
 * the condition checks, resolution, next-command suggestions and
 * completions computed from all of that.
 *
 * The wall clock (`Utc::now`) and the local hour (`Local::now().hour()`)
 * are parameters; iteration over a hash map follows an order given as a
 * parameter.
 */
module ContextManager {
  import opened Common
  import opened VoiceTypes

  type U8 = n: nat | n < 256

  /** How many executed commands the manager remembers. */
  const MaxHistory: nat := 50

  datatype ContextValue =
    | CtxString(s: string)
    | CtxNumber(n: real)
    | CtxBool(b: bool)
    | CtxArray(items: seq<ContextValue>)
    | CtxObject(fields: map<string, ContextValue>)

  datatype AudioStateCondition =
    | VadEnabled(on: bool)
    | SensitivityAbove(threshold: real)
    | SensitivityBelow(threshold: real)
    | IsRecording(recording: bool)

  datatype SttStateCondition =
    | InstantOutput(instant: bool)
    | Model(model: string)
    | Language(language: string)
    | ConfidenceAbove(threshold: real)

  /** A recent-command condition holds for commands newer than `within_ms` milliseconds. */
  datatype ContextCondition =
    | Mode(mode: SystemMode)
    | SessionVar(key: string, expected: ContextValue)
    | RecentCommand(command: string, within_ms: nat)
    | TimeOfDay(start_hour: U8, end_hour: U8)
    | AudioCondition(audio: AudioStateCondition)
    | SttCondition(stt: SttStateCondition)

  datatype DisambiguationRule = DisambiguationRule(
    pattern: string,
    conditions: seq<ContextCondition>,
    resolved_command: string,
    priority: U8)

  datatype TimeUsage = TimeUsage(hour: nat, frequency: nat)

  datatype ContextPreference = ContextPreference(
    preferred_commands: seq<string>,
    avoided_commands: seq<string>,
    custom_patterns: map<string, string>)

  datatype UserPreferences = UserPreferences(
    command_frequency: map<string, nat>,
    preferred_patterns: map<string, string>,
    time_based_usage: map<string, seq<TimeUsage>>,
    context_preferences: map<string, ContextPreference>,
    learning_enabled: bool)

  function DefaultPreferences(): UserPreferences
  {
    UserPreferences(map[], map[], map[], map[], true)
  }

  datatype CommandTransition = CommandTransition(
    next_command: string,
    probability: real,
    conditions: seq<ContextCondition>)

  datatype ResolutionMethod = Direct | Disambiguation | ContextPrediction | UserLearning | FuzzyMatch

  /** A context factor is either a condition that held or a fixed tag. */
  datatype Factor = Held(condition: ContextCondition) | Tag(name: string)

  datatype ResolvedCommand = ResolvedCommand(
    command_name: string,
    confidence: real,
    resolution_method: ResolutionMethod,
    context_factors: seq<Factor>)

  /**
   * A suggested next command. Here the pattern field holds where the
   * suggestion came from: "mode_suggestion", "transition" or "frequency".
   */
  datatype NextSuggestion = NextSuggestion(
    command_name: string,
    category: CommandCategory,
    pattern: string,
    confidence: real)

  /** What the condition checks look at: the manager's state and the clock. */
  datatype Situation = Situation(
    mode: SystemMode,
    session: map<string, ContextValue>,
    history: seq<ExecutedCommand>,
    now: nat,
    hour: nat)

  // ---------------------------------------------------------------------
  // Conditions
  // ---------------------------------------------------------------------

  /** `compare_context_values`: strings and booleans by equality, numbers within 0.001, nothing else. */
  predicate CompareValues(actual: ContextValue, expected: ContextValue)
  {
    match (actual, expected)
    case (CtxString(a), CtxString(e)) => a == e
    case (CtxNumber(a), CtxNumber(e)) => (if a >= e then a - e else e - a) < 0.001
    case (CtxBool(a), CtxBool(e)) => a == e
    case _ => false
  }

  /** Numbers compare equal exactly when they are less than 0.001 apart; other variants never match numbers. */
  lemma CompareValuesNumbers(actual: ContextValue, a: real, e: real)
    requires actual == CtxNumber(a)
    ensures CompareValues(actual, CtxNumber(e)) <==> -0.001 < a - e < 0.001
    ensures forall s :: !CompareValues(actual, CtxString(s)) && !CompareValues(CtxString(s), actual)
    ensures forall b :: !CompareValues(actual, CtxBool(b)) && !CompareValues(CtxBool(b), actual)
  {
  }

  /** `TimeOfDay(start, end)`: an inclusive range, wrapping past midnight when `start > end`. */
  predicate InHours(hour: nat, start: nat, end: nat)
  {
    if start <= end then start <= hour <= end else hour >= start || hour <= end
  }

  /** A wrapping range holds exactly at the hours its non-wrapping complement leaves out, plus its ends. */
  lemma InHoursWraps(hour: nat, start: nat, end: nat)
    requires end < start
    ensures InHours(hour, start, end) <==> !(end < hour < start)
  {
  }

  predicate BoolVar(session: map<string, ContextValue>, key: string, expected: bool)
  {
    key in session && session[key].CtxBool? && session[key].b == expected
  }

  predicate StrVar(session: map<string, ContextValue>, key: string, expected: string)
  {
    key in session && session[key].CtxString? && session[key].s == expected
  }

  predicate NumberAbove(session: map<string, ContextValue>, key: string, threshold: real)
  {
    key in session && session[key].CtxNumber? && session[key].n > threshold
  }

  predicate NumberBelow(session: map<string, ContextValue>, key: string, threshold: real)
  {
    key in session && session[key].CtxNumber? && session[key].n < threshold
  }

  /** `check_audio_condition`: reads the session variables that `update_context` writes. */
  predicate CheckAudio(c: AudioStateCondition, session: map<string, ContextValue>)
  {
    match c
    case VadEnabled(on) => BoolVar(session, "audio_vad_enabled", on)
    case SensitivityAbove(t) => NumberAbove(session, "audio_sensitivity", t)
    case SensitivityBelow(t) => NumberBelow(session, "audio_sensitivity", t)
    case IsRecording(on) => BoolVar(session, "audio_recording", on)
  }

  /** `check_stt_condition`. */
  predicate CheckStt(c: SttStateCondition, session: map<string, ContextValue>)
  {
    match c
    case InstantOutput(on) => BoolVar(session, "stt_instant_output", on)
    case Model(m) => StrVar(session, "stt_model", m)
    case Language(l) => StrVar(session, "stt_language", l)
    case ConfidenceAbove(t) => NumberAbove(session, "stt_confidence", t)
  }

  /** Some remembered run of `command` is newer than `now - within`. */
  predicate RecentlyRan(history: seq<ExecutedCommand>, command: string, now: nat, within: nat)
  {
    exists i :: 0 <= i < |history| && history[i].command_name == command && history[i].timestamp > now - within
  }

  /** `check_condition`. */
  predicate CheckCondition(c: ContextCondition, s: Situation)
  {
    match c
    case Mode(m) => s.mode == m
    case SessionVar(key, expected) => key in s.session && CompareValues(s.session[key], expected)
    case RecentCommand(command, within) => RecentlyRan(s.history, command, s.now, within)
    case TimeOfDay(start, end) => InHours(s.hour, start, end)
    case AudioCondition(a) => CheckAudio(a, s.session)
    case SttCondition(t) => CheckStt(t, s.session)
  }

  /** `check_conditions`: all of them hold (vacuously for none). */
  predicate CheckConditions(cs: seq<ContextCondition>, s: Situation)
  {
    forall i :: 0 <= i < |cs| ==> CheckCondition(cs[i], s)
  }

  /** A missing session variable fails every condition that reads it. */
  lemma MissingVariableFails(s: Situation, key: string, v: ContextValue)
    requires key !in s.session
    ensures !CheckCondition(SessionVar(key, v), s)
    ensures "audio_vad_enabled" !in s.session ==> forall b :: !CheckCondition(AudioCondition(VadEnabled(b)), s)
    ensures "stt_model" !in s.session ==> forall m :: !CheckCondition(SttCondition(Model(m)), s)
  {
  }

  /** `get_matching_factors`: the conditions that hold, in order. */
  function MatchingFactors(cs: seq<ContextCondition>, s: Situation): (r: seq<Factor>)
    ensures forall f :: f in r <==> f.Held? && f.condition in cs && CheckCondition(f.condition, s)
  {
    if |cs| == 0 then []
    else
      var init := MatchingFactors(cs[..|cs| - 1], s);
      var last := cs[|cs| - 1];
      assert forall c :: c in cs <==> c in cs[..|cs| - 1] || c == last by {
        assert cs == cs[..|cs| - 1] + [last];
      }
      if CheckCondition(last, s) then init + [Held(last)] else init
  }

  // ---------------------------------------------------------------------
  // Session variables mirrored from the system context
  // ---------------------------------------------------------------------

  /** The session after `update_context`: four variables copied from the context. */
  function MirrorContext(session: map<string, ContextValue>, ctx: SystemContext): map<string, ContextValue>
  {
    session["audio_vad_enabled" := CtxBool(ctx.audio.vad_enabled)]
           ["audio_sensitivity" := CtxNumber(ctx.audio.sensitivity)]
           ["stt_instant_output" := CtxBool(ctx.stt.instant_output)]
           ["stt_model" := CtxString(ctx.stt.current_model)]
  }

  /** After `update_context`, the audio and speech-to-text conditions describe the context it was given. */
  lemma MirroredConditions(session: map<string, ContextValue>, ctx: SystemContext, b: bool, t: real, m: string)
    ensures CheckAudio(VadEnabled(b), MirrorContext(session, ctx)) <==> ctx.audio.vad_enabled == b
    ensures CheckAudio(SensitivityAbove(t), MirrorContext(session, ctx)) <==> ctx.audio.sensitivity > t
    ensures CheckAudio(SensitivityBelow(t), MirrorContext(session, ctx)) <==> ctx.audio.sensitivity < t
    ensures CheckStt(InstantOutput(b), MirrorContext(session, ctx)) <==> ctx.stt.instant_output == b
    ensures CheckStt(Model(m), MirrorContext(session, ctx)) <==> ctx.stt.current_model == m
  {
  }

  // ---------------------------------------------------------------------
  // Learning: frequencies, hourly usage, transitions
  // ---------------------------------------------------------------------

  /** The hour of the day (UTC) of a timestamp in milliseconds. */
  function HourOf(timestamp: nat): (h: nat)
    ensures h < 24
  {
    (timestamp / 3_600_000) % 24
  }

  /** How often the hour `hour` was counted in `usage` (its bucket, or 0). */
  function UsageAt(usage: seq<TimeUsage>, hour: nat): nat
  {
    if |usage| == 0 then 0
    else if usage[0].hour == hour then usage[0].frequency
    else UsageAt(usage[1..], hour)
  }

  predicate DistinctHours(usage: seq<TimeUsage>)
  {
    forall i, j :: 0 <= i < j < |usage| ==> usage[i].hour != usage[j].hour
  }

  /** `update_time_based_usage` for one list: bump the hour's bucket, or add one with count 1. */
  function BumpHour(usage: seq<TimeUsage>, hour: nat): (r: seq<TimeUsage>)
  {
    if |usage| == 0 then [TimeUsage(hour, 1)]
    else if usage[0].hour == hour then [usage[0].(frequency := usage[0].frequency + 1)] + usage[1..]
    else [usage[0]] + BumpHour(usage[1..], hour)
  }

  /** Bumping an hour counts it once more, leaves the other hours alone and keeps one bucket per hour. */
  lemma {:induction false} BumpHourCounts(usage: seq<TimeUsage>, hour: nat, other: nat)
    requires DistinctHours(usage)
    ensures DistinctHours(BumpHour(usage, hour))
    ensures UsageAt(BumpHour(usage, hour), hour) == UsageAt(usage, hour) + 1
    ensures other != hour ==> UsageAt(BumpHour(usage, hour), other) == UsageAt(usage, other)
    ensures forall t :: t in BumpHour(usage, hour) ==> t in usage || t.hour == hour
    decreases |usage|
  {
    if |usage| > 0 && usage[0].hour != hour {
      BumpHourCounts(usage[1..], hour, other);
      var r := BumpHour(usage, hour);
      forall i, j | 0 <= i < j < |r| ensures r[i].hour != r[j].hour {
        if i == 0 {
          assert r[j] in BumpHour(usage[1..], hour);
          if r[j] !in usage[1..] {
            assert r[j].hour == hour;
          } else {
            var k :| 0 <= k < |usage[1..]| && usage[1..][k] == r[j];
            assert usage[k + 1] == r[j];
          }
        }
      }
    } else if |usage| > 0 {
      var r := BumpHour(usage, hour);
      assert forall i :: 1 <= i < |r| ==> r[i] == usage[i];
    }
  }

  /** The time-usage map after one more run of `command` at `timestamp`. */
  function BumpUsage(m: map<string, seq<TimeUsage>>, command: string, timestamp: nat): map<string, seq<TimeUsage>>
  {
    m[command := BumpHour(if command in m then m[command] else [], HourOf(timestamp))]
  }

  /** The preferences after learning from one run, when learning is on. */
  function Learn(p: UserPreferences, executed: ExecutedCommand): UserPreferences
  {
    p.(command_frequency := Bump(p.command_frequency, executed.command_name),
       time_based_usage := BumpUsage(p.time_based_usage, executed.command_name, executed.timestamp))
  }

  /** Learned probabilities start at 0.1 and never exceed 1. */
  predicate ProbabilityBounded(p: real) { 0.1 <= p <= 1.0 }

  predicate TransitionsBounded(ts: map<string, seq<CommandTransition>>)
  {
    forall k, i :: k in ts && 0 <= i < |ts[k]| ==> ProbabilityBounded(ts[k][i].probability)
  }

  /** `(p * 0.9 + 0.1).min(1.0)`. */
  function Reinforce(p: real): real
  {
    MinReal(p * 0.9 + 0.1, 1.0)
  }

  /** The transition list after seeing `next`: reinforce its first entry, or add one at 0.1. */
  function BumpTransition(ts: seq<CommandTransition>, next: string): (r: seq<CommandTransition>)
    ensures |ts| <= |r| <= |ts| + 1
  {
    if |ts| == 0 then [CommandTransition(next, 0.1, [])]
    else if ts[0].next_command == next then [ts[0].(probability := Reinforce(ts[0].probability))] + ts[1..]
    else [ts[0]] + BumpTransition(ts[1..], next)
  }

  /**
   * Reinforcing keeps every probability in [0.1, 1]; the entry for `next`
   * is the old one reinforced, or a new one at 0.1 at the end.
   */
  lemma {:induction false} BumpTransitionBounded(ts: seq<CommandTransition>, next: string)
    requires forall i :: 0 <= i < |ts| ==> ProbabilityBounded(ts[i].probability)
    ensures var r := BumpTransition(ts, next);
      && (forall i :: 0 <= i < |r| ==> ProbabilityBounded(r[i].probability))
      && (forall i :: 0 <= i < |ts| && ts[i].next_command != next ==> r[i] == ts[i])
      && ((forall i :: 0 <= i < |ts| ==> ts[i].next_command != next) ==> r == ts + [CommandTransition(next, 0.1, [])])
    decreases |ts|
  {
    if |ts| > 0 {
      if ts[0].next_command == next {
        var p := ts[0].probability;
        assert 0.19 <= p * 0.9 + 0.1;
      } else {
        BumpTransitionBounded(ts[1..], next);
        var r := BumpTransition(ts, next);
        var t := BumpTransition(ts[1..], next);
        assert forall i :: 1 <= i < |r| ==> r[i] == t[i - 1];
        if forall i :: 0 <= i < |ts| ==> ts[i].next_command != next {
          assert forall i :: 0 <= i < |ts[1..]| ==> ts[1..][i] == ts[i + 1];
          assert [ts[0]] + (ts[1..] + [CommandTransition(next, 0.1, [])]) == ts + [CommandTransition(next, 0.1, [])];
        }
      }
    }
  }

  /** The first entry for `next`, once reinforced, carries `min(0.9p + 0.1, 1)`. */
  lemma {:induction false} BumpTransitionReinforces(ts: seq<CommandTransition>, next: string, i: nat)
    requires i < |ts| && ts[i].next_command == next
    requires forall j :: 0 <= j < i ==> ts[j].next_command != next
    ensures |BumpTransition(ts, next)| == |ts|
    ensures BumpTransition(ts, next)[i].probability == Reinforce(ts[i].probability)
    ensures BumpTransition(ts, next)[i].next_command == next
    decreases i
  {
    if i > 0 {
      BumpTransitionReinforces(ts[1..], next, i - 1);
    }
  }

  /**
   * `update_transition_patterns`, run after the new command joined the
   * history: with at least two remembered commands, the transition from
   * the one before the newest to `next` is reinforced.
   */
  function Transit(ts: map<string, seq<CommandTransition>>, history: seq<ExecutedCommand>, next: string)
    : map<string, seq<CommandTransition>>
  {
    if |history| >= 2 then
      var prev := history[|history| - 2].command_name;
      ts[prev := BumpTransition(if prev in ts then ts[prev] else [], next)]
    else ts
  }

  lemma TransitBounded(ts: map<string, seq<CommandTransition>>, history: seq<ExecutedCommand>, next: string)
    requires TransitionsBounded(ts)
    ensures TransitionsBounded(Transit(ts, history, next))
    ensures |history| < 2 ==> Transit(ts, history, next) == ts
  {
    if |history| >= 2 {
      var prev := history[|history| - 2].command_name;
      BumpTransitionBounded(if prev in ts then ts[prev] else [], next);
    }
  }

  // ---------------------------------------------------------------------
  // Disambiguation rules
  // ---------------------------------------------------------------------

  function RuleKey(r: DisambiguationRule): real { r.priority as real }

  /** The rule list after `add_disambiguation_rule`: append, then stable sort by descending priority. */
  function AddRule(rules: seq<DisambiguationRule>, rule: DisambiguationRule): (r: seq<DisambiguationRule>)
  {
    SortDesc(rules + [rule], RuleKey)
  }

  /** Adding a rule keeps the list sorted and adds exactly that rule. */
  lemma AddRuleSorted(rules: seq<DisambiguationRule>, rule: DisambiguationRule)
    ensures SortedDesc(AddRule(rules, rule), RuleKey)
    ensures multiset(AddRule(rules, rule)) == multiset(rules) + multiset{rule}
  {
    SortDescSorted(rules + [rule], RuleKey);
  }

  // ---------------------------------------------------------------------
  // Resolving ambiguous input
  // ---------------------------------------------------------------------

  function RuleConfidence(priority: U8): real { 0.9 + priority as real / 100.0 }

  /** The candidates from the rules, in rule order. */
  function RuleCandidates(rules: seq<DisambiguationRule>, input: string, s: Situation): (r: seq<ResolvedCommand>)
    ensures forall i :: 0 <= i < |r| ==> r[i].resolution_method == Disambiguation && r[i].confidence >= 0.9
  {
    if |rules| == 0 then []
    else
      var init := RuleCandidates(rules[..|rules| - 1], input, s);
      var rule := rules[|rules| - 1];
      if RuleFires(rule, input, s) then
        init + [ResolvedCommand(rule.resolved_command, RuleConfidence(rule.priority), Disambiguation,
                                MatchingFactors(rule.conditions, s))]
      else init
  }

  /** The rule applies: its pattern occurs in the input and all its conditions hold. */
  predicate RuleFires(rule: DisambiguationRule, input: string, s: Situation)
  {
    Contains(input, rule.pattern) && CheckConditions(rule.conditions, s)
  }

  predicate Names(cs: seq<ResolvedCommand>, name: string)
  {
    exists i :: 0 <= i < |cs| && cs[i].command_name == name
  }

  /** A rule candidate names a command exactly when some rule resolving to it fires. */
  lemma {:induction false} RuleCandidatesExact(rules: seq<DisambiguationRule>, input: string, s: Situation, name: string)
    ensures Names(RuleCandidates(rules, input, s), name)
      <==> exists j :: 0 <= j < |rules| && rules[j].resolved_command == name && RuleFires(rules[j], input, s)
  {
    if |rules| > 0 {
      var init := rules[..|rules| - 1];
      var last := rules[|rules| - 1];
      var ic := RuleCandidates(init, input, s);
      var rc := RuleCandidates(rules, input, s);
      RuleCandidatesExact(init, input, s, name);
      assert forall i :: 0 <= i < |ic| ==> rc[i] == ic[i];
      if Names(rc, name) {
        var i :| 0 <= i < |rc| && rc[i].command_name == name;
        if i < |ic| {
          assert ic[i].command_name == name;
          var j :| 0 <= j < |init| && init[j].resolved_command == name && RuleFires(init[j], input, s);
          assert rules[j] == init[j];
        } else {
          assert RuleFires(last, input, s) && last.resolved_command == name;
        }
      }
      if exists j :: 0 <= j < |rules| && rules[j].resolved_command == name && RuleFires(rules[j], input, s) {
        var j :| 0 <= j < |rules| && rules[j].resolved_command == name && RuleFires(rules[j], input, s);
        if j < |rules| - 1 {
          assert init[j] == rules[j];
          var i :| 0 <= i < |ic| && ic[i].command_name == name;
          assert rc[i].command_name == name;
        } else {
          assert rc[|rc| - 1].command_name == name;
        }
      }
    }
  }

  /** The predicted commands of a mode that contain the lower-cased input. */
  function PredictionCandidates(predictions: seq<string>, lowered: string): (r: seq<ResolvedCommand>)
    ensures forall i :: 0 <= i < |r| ==> r[i].resolution_method == ContextPrediction && r[i].confidence == 0.7
    ensures forall i :: 0 <= i < |r| ==> r[i].command_name in predictions && Contains(r[i].command_name, lowered)
  {
    if |predictions| == 0 then []
    else
      var init := PredictionCandidates(predictions[..|predictions| - 1], lowered);
      var p := predictions[|predictions| - 1];
      if Contains(p, lowered) then init + [ResolvedCommand(p, 0.7, ContextPrediction, [Tag("context_prediction")])]
      else init
  }

  function PreferenceCandidates(preferred: map<string, string>, input: string): (r: seq<ResolvedCommand>)
    ensures |r| > 0 <==> input in preferred
    ensures forall i :: 0 <= i < |r| ==> r[i].resolution_method == UserLearning && r[i].confidence == 0.85
  {
    if input in preferred then [ResolvedCommand(preferred[input], 0.85, UserLearning, [Tag("user_preference")])]
    else []
  }

  function ModePredictions(predictions: map<string, seq<string>>, mode: SystemMode): seq<string>
  {
    if ModeName(mode) in predictions then predictions[ModeName(mode)] else []
  }

  function ResolvedConfidence(c: ResolvedCommand): real { c.confidence }

  /** Everything `resolve_ambiguous_command` finds, before sorting. */
  function ResolveCandidates(rules: seq<DisambiguationRule>, prefs: UserPreferences,
                             predictions: map<string, seq<string>>, s: Situation, input: string)
    : seq<ResolvedCommand>
  {
    RuleCandidates(rules, input, s) + PreferenceCandidates(prefs.preferred_patterns, input)
      + PredictionCandidates(ModePredictions(predictions, s.mode), ToLower(input))
  }

  /** `resolve_ambiguous_command`: the candidates, stably sorted by descending confidence. */
  function ResolveOf(rules: seq<DisambiguationRule>, prefs: UserPreferences,
                     predictions: map<string, seq<string>>, s: Situation, input: string): seq<ResolvedCommand>
  {
    SortDesc(ResolveCandidates(rules, prefs, predictions, s, input), ResolvedConfidence)
  }

  /**
   * In a sorted arrangement of rule candidates (scoring at least 0.9),
   * preference candidates (0.85) and prediction candidates (0.7), a
   * preference shows up exactly when there is one, and a rule candidate
   * comes first whenever there is one.
   */
  lemma SortedCandidatePieces(rc: seq<ResolvedCommand>, pc: seq<ResolvedCommand>, dc: seq<ResolvedCommand>,
                              r: seq<ResolvedCommand>)
    requires multiset(r) == multiset(rc + pc + dc)
    requires SortedDesc(r, ResolvedConfidence)
    requires forall i :: 0 <= i < |rc| ==> rc[i].resolution_method == Disambiguation && rc[i].confidence >= 0.9
    requires forall i :: 0 <= i < |pc| ==> pc[i].resolution_method == UserLearning && pc[i].confidence == 0.85
    requires forall i :: 0 <= i < |dc| ==> dc[i].resolution_method == ContextPrediction && dc[i].confidence == 0.7
    ensures (exists i :: 0 <= i < |r| && r[i].resolution_method == UserLearning) <==> |pc| > 0
    ensures |rc| > 0 ==> |r| > 0 && r[0].resolution_method == Disambiguation
  {
    var cands := rc + pc + dc;
    forall c | c in r ensures c in rc || c in pc || c in dc {
      InMultisetMembers(r, cands, c);
    }
    forall i | 0 <= i < |r| && r[i].resolution_method == UserLearning ensures |pc| > 0 {
      assert r[i] in rc || r[i] in pc || r[i] in dc;
    }
    if |pc| > 0 {
      assert pc[0] in cands;
      InMultisetMembers(r, cands, pc[0]);
      var k :| 0 <= k < |r| && r[k] == pc[0];
    }
    if |rc| > 0 {
      assert rc[0] in cands;
      InMultisetMembers(r, cands, rc[0]);
      var k :| 0 <= k < |r| && r[k] == rc[0];
      var first := r[0];
      assert first.confidence >= r[k].confidence;
      assert first in rc || first in pc || first in dc;
    }
  }

  /**
   * The resolution is sorted and holds exactly the candidates; a
   * preferred-pattern candidate is present exactly when the input is a
   * preferred pattern, and when any rule fires, the first entry comes
   * from a rule, because rules score at least 0.9 and the rest at most 0.85.
   */
  lemma ResolveShape(rules: seq<DisambiguationRule>, prefs: UserPreferences,
                     predictions: map<string, seq<string>>, s: Situation, input: string)
    ensures var r := ResolveOf(rules, prefs, predictions, s, input);
      && SortedDesc(r, ResolvedConfidence)
      && multiset(r) == multiset(ResolveCandidates(rules, prefs, predictions, s, input))
      && ((exists i :: 0 <= i < |r| && r[i].resolution_method == UserLearning) <==> input in prefs.preferred_patterns)
      && (|RuleCandidates(rules, input, s)| > 0 ==> |r| > 0 && r[0].resolution_method == Disambiguation)
  {
    var cands := ResolveCandidates(rules, prefs, predictions, s, input);
    SortDescSorted(cands, ResolvedConfidence);
    SortedCandidatePieces(RuleCandidates(rules, input, s), PreferenceCandidates(prefs.preferred_patterns, input),
                          PredictionCandidates(ModePredictions(predictions, s.mode), ToLower(input)),
                          ResolveOf(rules, prefs, predictions, s, input));
  }

  // ---------------------------------------------------------------------
  // Next-command suggestions
  // ---------------------------------------------------------------------

  /** The fixed suggestions of each mode. */
  function ModeSuggestions(mode: SystemMode): seq<NextSuggestion>
  {
    match mode
    case Normal =>
      [NextSuggestion("enable_narration", Stt, "mode_suggestion", 0.6),
       NextSuggestion("show_status", System, "mode_suggestion", 0.5)]
    case Narration => [NextSuggestion("disable_narration", Stt, "mode_suggestion", 0.8)]
    case Recording => [NextSuggestion("stop_recording", CommandCategory.Recording, "mode_suggestion", 0.8)]
    case Configuration => [NextSuggestion("save_settings", System, "mode_suggestion", 0.7)]
    case Help => [NextSuggestion("list_commands", CommandCategory.Help, "mode_suggestion", 0.7)]
    case Maintenance => [NextSuggestion("run_diagnostics", System, "mode_suggestion", 0.7)]
  }

  lemma ModeSuggestionsOrdered(mode: SystemMode)
    ensures 0 < |ModeSuggestions(mode)| <= 2
    ensures SortedDesc(ModeSuggestions(mode), SuggestionConfidence)
    ensures NoAdjacentNames(ModeSuggestions(mode))
  {
  }

  /** The transitions whose conditions hold, as suggestions at their probability. */
  function TransitionSuggestions(ts: seq<CommandTransition>, s: Situation): seq<NextSuggestion>
  {
    if |ts| == 0 then []
    else
      var init := TransitionSuggestions(ts[..|ts| - 1], s);
      var t := ts[|ts| - 1];
      if CheckConditions(t.conditions, s) then init + [NextSuggestion(t.next_command, System, "transition", t.probability)]
      else init
  }

  /** The suggestions that follow the newest remembered command. */
  function AfterLast(ts: map<string, seq<CommandTransition>>, s: Situation): seq<NextSuggestion>
  {
    if |s.history| > 0 && s.history[|s.history| - 1].command_name in ts then
      TransitionSuggestions(ts[s.history[|s.history| - 1].command_name], s)
    else []
  }

  function FrequencyPairs(freq: map<string, nat>, order: seq<string>): (r: seq<(string, nat)>)
    requires forall k :: k in order ==> k in freq
    ensures |r| == |order|
    ensures forall i :: 0 <= i < |r| ==> r[i] == (order[i], freq[order[i]])
  {
    if |order| == 0 then [] else FrequencyPairs(freq, order[..|order| - 1]) + [(order[|order| - 1], freq[order[|order| - 1]])]
  }

  function PairKey(p: (string, nat)): real { p.1 as real }

  /** `get_frequent_commands(limit)`: the most frequent commands, most frequent first. */
  function FrequentCommands(freq: map<string, nat>, order: seq<string>, limit: nat): (r: seq<(string, nat)>)
    requires IsOrderOf(order, freq.Keys)
  {
    Take(SortDesc(FrequencyPairs(freq, order), PairKey), limit)
  }

  /** At most `limit` commands, by descending use, each with its recorded count. */
  lemma FrequentCommandsShape(freq: map<string, nat>, order: seq<string>, limit: nat)
    requires IsOrderOf(order, freq.Keys)
    ensures var r := FrequentCommands(freq, order, limit);
      && |r| <= limit && |r| <= |freq|
      && SortedDesc(r, PairKey)
      && (forall i :: 0 <= i < |r| ==> r[i].0 in freq && r[i].1 == freq[r[i].0])
  {
    var pairs := FrequencyPairs(freq, order);
    var sorted := SortDesc(pairs, PairKey);
    SortDescSorted(pairs, PairKey);
    var r := FrequentCommands(freq, order, limit);
    forall i | 0 <= i < |r| ensures r[i].0 in freq && r[i].1 == freq[r[i].0] {
      assert r[i] == sorted[i];
      InMultisetMembers(sorted, pairs, sorted[i]);
      var k :| 0 <= k < |pairs| && pairs[k] == sorted[i];
    }
    assert |order| <= |freq| by {
      NoDuplicatesCard(order, freq.Keys);
    }
  }

  /** A duplicate-free sequence drawn from a set is no longer than the set. */
  lemma {:induction false} NoDuplicatesCard(order: seq<string>, keys: set<string>)
    requires NoDuplicates(order) && (forall k :: k in order ==> k in keys)
    ensures |order| <= |keys|
    decreases |order|
  {
    if |order| > 0 {
      var x := order[0];
      assert forall k :: k in order[1..] ==> k in keys - {x} by {
        forall k | k in order[1..] ensures k in keys - {x} {
          var j :| 0 <= j < |order[1..]| && order[1..][j] == k;
          assert order[j + 1] == k;
        }
      }
      NoDuplicatesCard(order[1..], keys - {x});
    }
  }

  function FrequencySuggestions(pairs: seq<(string, nat)>): seq<NextSuggestion>
  {
    if |pairs| == 0 then []
    else
      FrequencySuggestions(pairs[..|pairs| - 1])
        + [NextSuggestion(pairs[|pairs| - 1].0, System, "frequency", MinReal(pairs[|pairs| - 1].1 as real / 100.0, 0.8))]
  }

  function SuggestionConfidence(s: NextSuggestion): real { s.confidence }

  /** What `dedup_by` keeps of `rest` after keeping `kept`: it skips every suggestion named like the last one kept. */
  function DedupAfter(kept: NextSuggestion, rest: seq<NextSuggestion>): (r: seq<NextSuggestion>)
    ensures |r| <= |rest|
    ensures forall x :: x in r ==> x in rest
    decreases |rest|
  {
    if |rest| == 0 then []
    else if rest[0].command_name == kept.command_name then DedupAfter(kept, rest[1..])
    else [rest[0]] + DedupAfter(rest[0], rest[1..])
  }


  /** `dedup_by(|a, b| a.command_name == b.command_name)`. */
  function DedupByName(s: seq<NextSuggestion>): (r: seq<NextSuggestion>)
    ensures |r| <= |s|
    ensures forall x :: x in r ==> x in s
  {
    if |s| == 0 then [] else [s[0]] + DedupAfter(s[0], s[1..])
  }

  predicate NoAdjacentNames(s: seq<NextSuggestion>)
  {
    forall i :: 0 <= i < |s| - 1 ==> s[i].command_name != s[i + 1].command_name
  }

  lemma {:induction false} DedupAfterAdjacent(kept: NextSuggestion, rest: seq<NextSuggestion>)
    ensures NoAdjacentNames([kept] + DedupAfter(kept, rest))
    decreases |rest|
  {
    if |rest| > 0 {
      if rest[0].command_name == kept.command_name {
        DedupAfterAdjacent(kept, rest[1..]);
      } else {
        DedupAfterAdjacent(rest[0], rest[1..]);
        var t := [rest[0]] + DedupAfter(rest[0], rest[1..]);
        assert [kept] + DedupAfter(kept, rest) == [kept] + t;
      }
    }
  }

  lemma SortedConsParts(kept: NextSuggestion, rest: seq<NextSuggestion>)
    requires SortedDesc([kept] + rest, SuggestionConfidence)
    ensures SortedDesc(rest, SuggestionConfidence)
    ensures forall x :: x in rest ==> kept.confidence >= x.confidence
    ensures |rest| > 0 ==> SortedDesc([kept] + rest[1..], SuggestionConfidence)
  {
    var all := [kept] + rest;
    assert forall i :: 0 <= i < |rest| ==> all[i + 1] == rest[i];
    forall x | x in rest ensures kept.confidence >= x.confidence {
      var i :| 0 <= i < |rest| && rest[i] == x;
      assert all[0] == kept && all[i + 1] == x;
      assert SuggestionConfidence(all[0]) >= SuggestionConfidence(all[i + 1]);
    }
    if |rest| > 0 {
      var t := [kept] + rest[1..];
      assert forall i :: 1 <= i < |t| ==> t[i] == all[i + 1];
    }
  }

  lemma SortedCons(kept: NextSuggestion, t: seq<NextSuggestion>)
    requires SortedDesc(t, SuggestionConfidence)
    requires forall x :: x in t ==> kept.confidence >= x.confidence
    ensures SortedDesc([kept] + t, SuggestionConfidence)
  {
    var all := [kept] + t;
    assert forall i :: 0 < i < |all| ==> all[i] == t[i - 1];
  }

  lemma {:induction false} DedupAfterSorted(kept: NextSuggestion, rest: seq<NextSuggestion>)
    requires SortedDesc([kept] + rest, SuggestionConfidence)
    ensures SortedDesc([kept] + DedupAfter(kept, rest), SuggestionConfidence)
    decreases |rest|
  {
    if |rest| > 0 {
      SortedConsParts(kept, rest);
      if rest[0].command_name == kept.command_name {
        DedupAfterSorted(kept, rest[1..]);
      } else {
        assert [rest[0]] + rest[1..] == rest;
        DedupAfterSorted(rest[0], rest[1..]);
        SortedCons(kept, DedupAfter(kept, rest));
      }
    }
  }

  lemma {:induction false} DedupAfterNames(kept: NextSuggestion, rest: seq<NextSuggestion>, x: NextSuggestion)
    requires x in rest
    ensures exists y :: y in [kept] + DedupAfter(kept, rest) && y.command_name == x.command_name
    decreases |rest|
  {
    if rest[0] != x {
      assert x in rest[1..];
      if rest[0].command_name == kept.command_name {
        DedupAfterNames(kept, rest[1..], x);
      } else {
        DedupAfterNames(rest[0], rest[1..], x);
      }
    } else if rest[0].command_name == kept.command_name {
      assert kept in [kept] + DedupAfter(kept, rest);
    } else {
      assert x in [kept] + DedupAfter(kept, rest);
    }
  }

  /** Deduplication leaves no two neighbours with the same name, keeps the order, and keeps every name. */
  lemma DedupByNameShape(s: seq<NextSuggestion>)
    requires SortedDesc(s, SuggestionConfidence)
    ensures NoAdjacentNames(DedupByName(s))
    ensures SortedDesc(DedupByName(s), SuggestionConfidence)
    ensures forall x :: x in s ==> exists y :: y in DedupByName(s) && y.command_name == x.command_name
  {
    if |s| > 0 {
      assert s == [s[0]] + s[1..];
      DedupAfterAdjacent(s[0], s[1..]);
      DedupAfterSorted(s[0], s[1..]);
      forall x | x in s ensures exists y :: y in DedupByName(s) && y.command_name == x.command_name {
        if x == s[0] {
          assert x in DedupByName(s);
        } else {
          DedupAfterNames(s[0], s[1..], x);
        }
      }
    }
  }

  /** Without neighbours of the same name there is nothing to drop. */
  lemma {:induction false} DedupAfterNothing(kept: NextSuggestion, rest: seq<NextSuggestion>)
    requires NoAdjacentNames([kept] + rest)
    ensures DedupAfter(kept, rest) == rest
    decreases |rest|
  {
    if |rest| > 0 {
      var all := [kept] + rest;
      assert all[0] == kept && all[1] == rest[0];
      assert forall i :: 0 <= i < |rest| ==> all[i + 1] == rest[i];
      assert [rest[0]] + rest[1..] == rest;
      DedupAfterNothing(rest[0], rest[1..]);
    }
  }

  const MaxNextSuggestions: nat := 10

  /** Everything `suggest_next_commands` collects, before sorting. */
  function NextCandidates(ts: map<string, seq<CommandTransition>>, freq: map<string, nat>, order: seq<string>,
                          s: Situation): seq<NextSuggestion>
    requires IsOrderOf(order, freq.Keys)
  {
    ModeSuggestions(s.mode) + AfterLast(ts, s) + FrequencySuggestions(FrequentCommands(freq, order, 5))
  }

  /** `suggest_next_commands`: sort by confidence, drop neighbouring duplicates, keep ten. */
  function NextOf(ts: map<string, seq<CommandTransition>>, freq: map<string, nat>, order: seq<string>,
                  s: Situation): seq<NextSuggestion>
    requires IsOrderOf(order, freq.Keys)
  {
    Take(DedupByName(SortDesc(NextCandidates(ts, freq, order, s), SuggestionConfidence)), MaxNextSuggestions)
  }

  /**
   * The suggestions are sorted by descending confidence, at most ten, with
   * no two neighbours of the same name, and each is one of the candidates.
   */
  lemma NextShape(ts: map<string, seq<CommandTransition>>, freq: map<string, nat>, order: seq<string>, s: Situation)
    requires IsOrderOf(order, freq.Keys)
    ensures var r := NextOf(ts, freq, order, s);
      && |r| <= MaxNextSuggestions
      && SortedDesc(r, SuggestionConfidence)
      && NoAdjacentNames(r)
      && (forall x :: x in r ==> x in NextCandidates(ts, freq, order, s))
  {
    var cands := NextCandidates(ts, freq, order, s);
    var sorted := SortDesc(cands, SuggestionConfidence);
    SortDescSorted(cands, SuggestionConfidence);
    DedupByNameShape(sorted);
    var d := DedupByName(sorted);
    TakeKeepsShape(d, MaxNextSuggestions);
    forall x | x in Take(d, MaxNextSuggestions) ensures x in cands {
      InMultisetMembers(sorted, cands, x);
    }
  }

  /** A prefix of a sorted list without same-named neighbours is one too. */
  lemma TakeKeepsShape(d: seq<NextSuggestion>, n: nat)
    requires SortedDesc(d, SuggestionConfidence) && NoAdjacentNames(d)
    ensures SortedDesc(Take(d, n), SuggestionConfidence) && NoAdjacentNames(Take(d, n))
    ensures forall x :: x in Take(d, n) ==> x in d
  {
  }

  /** When nothing was learned yet, the mode's own suggestions are all there is, in order. */
  lemma NextWithoutHistory(ts: map<string, seq<CommandTransition>>, mode: SystemMode,
                           session: map<string, ContextValue>, now: nat, hour: nat)
    ensures NextOf(ts, map[], [], Situation(mode, session, [], now, hour)) == ModeSuggestions(mode)
  {
    var s := Situation(mode, session, [], now, hour);
    var ms := ModeSuggestions(mode);
    NoHistoryCandidates(ts, s);
    ModeSuggestionsOrdered(mode);
    SortDescOfSorted(ms, SuggestionConfidence);
    ModeSuggestionsDistinct(ms);
  }

  lemma NoHistoryCandidates(ts: map<string, seq<CommandTransition>>, s: Situation)
    requires s.history == []
    ensures NextCandidates(ts, map[], [], s) == ModeSuggestions(s.mode)
  {
    assert FrequencyPairs(map[], []) == [];
    assert SortDesc(FrequencyPairs(map[], []), PairKey) == [];
    assert FrequentCommands(map[], [], 5) == [];
    assert AfterLast(ts, s) == [];
  }

  lemma ModeSuggestionsDistinct(ms: seq<NextSuggestion>)
    requires 0 < |ms| <= 2 && NoAdjacentNames(ms)
    ensures Take(DedupByName(ms), MaxNextSuggestions) == ms
  {
    assert ms == [ms[0]] + ms[1..];
    DedupAfterNothing(ms[0], ms[1..]);
  }

  // ---------------------------------------------------------------------
  // Completions
  // ---------------------------------------------------------------------

  /** The strings of `ss` that start with `partial`, in order. */
  function WithPrefix(ss: seq<string>, partial: string): (r: seq<string>)
    ensures forall x :: x in r <==> x in ss && StartsWith(x, partial)
  {
    if |ss| == 0 then []
    else
      var init := WithPrefix(ss[..|ss| - 1], partial);
      var last := ss[|ss| - 1];
      assert forall x :: x in ss <==> x in ss[..|ss| - 1] || x == last by {
        assert ss == ss[..|ss| - 1] + [last];
      }
      if StartsWith(last, partial) then init + [last] else init
  }

  function ContextPreferred(prefs: UserPreferences, mode: SystemMode): seq<string>
  {
    if ModeName(mode) in prefs.context_preferences then prefs.context_preferences[ModeName(mode)].preferred_commands
    else []
  }

  /**
   * `get_command_completions`: preferred patterns (in the map's iteration
   * order) and the mode's preferred commands that start with `partial`,
   * sorted, without duplicates.
   */
  function CompletionsOf(prefs: UserPreferences, order: seq<string>, mode: SystemMode, partial: string): seq<string>
  {
    Dedup(SortLex(WithPrefix(order, partial) + WithPrefix(ContextPreferred(prefs, mode), partial)))
  }

  /** Completions are strictly sorted and hold exactly the matching candidates. */
  lemma CompletionsShape(prefs: UserPreferences, order: seq<string>, mode: SystemMode, partial: string)
    requires IsOrderOf(order, prefs.preferred_patterns.Keys)
    ensures var r := CompletionsOf(prefs, order, mode, partial);
      && StrictlySortedLex(r)
      && forall x :: x in r <==> (StartsWith(x, partial)
           && (x in prefs.preferred_patterns || x in ContextPreferred(prefs, mode)))
  {
    var all := WithPrefix(order, partial) + WithPrefix(ContextPreferred(prefs, mode), partial);
    SortLexSorted(all);
    DedupStrict(SortLex(all));
    forall x ensures x in SortLex(all) <==> x in all {
      InMultisetMembers(SortLex(all), all, x);
    }
  }

  /** The completions do not depend on the order in which the hash map is walked. */
  lemma CompletionsOrderFree(prefs: UserPreferences, order1: seq<string>, order2: seq<string>,
                             mode: SystemMode, partial: string)
    requires IsOrderOf(order1, prefs.preferred_patterns.Keys) && IsOrderOf(order2, prefs.preferred_patterns.Keys)
    ensures CompletionsOf(prefs, order1, mode, partial) == CompletionsOf(prefs, order2, mode, partial)
  {
    CompletionsShape(prefs, order1, mode, partial);
    CompletionsShape(prefs, order2, mode, partial);
    StrictlySortedUnique(CompletionsOf(prefs, order1, mode, partial), CompletionsOf(prefs, order2, mode, partial));
  }

  // ---------------------------------------------------------------------
  // The manager
  // ---------------------------------------------------------------------

  /** `initialize_context_predictions`. */
  function DefaultPredictions(): map<string, seq<string>>
  {
    map["Normal" := ["enable_vad", "show_status", "toggle_instant_output", "enable_narration"],
        "Narration" := ["disable_narration", "pause_narration"],
        "Recording" := ["stop_recording", "pause_recording", "save_recording"]]
  }

  class CommandContextManager {
    var mode: SystemMode
    var history: seq<ExecutedCommand>
    var session: map<string, ContextValue>
    var prefs: UserPreferences
    var rules: seq<DisambiguationRule>
    var transitions: map<string, seq<CommandTransition>>
    var predictions: map<string, seq<string>>

    /**
     * The history fits its bound, the rules are in descending priority,
     * every learned probability is in [0.1, 1] and every command keeps one
     * usage bucket per hour.
     */
    predicate Valid()
      reads this
    {
      && |history| <= MaxHistory
      && SortedDesc(rules, RuleKey)
      && TransitionsBounded(transitions)
      && (forall k :: k in prefs.time_based_usage ==> DistinctHours(prefs.time_based_usage[k]))
    }

    function At(now: nat, hour: nat): Situation
      reads this
    {
      Situation(mode, session, history, now, hour)
    }

    /** `CommandContextManager::new`. */
    constructor ()
      ensures Valid()
      ensures mode == Normal && history == [] && session == map[]
      ensures prefs == DefaultPreferences() && rules == [] && transitions == map[]
      ensures predictions == DefaultPredictions()
    {
      mode := Normal;
      history := [];
      session := map[];
      prefs := DefaultPreferences();
      rules := [];
      transitions := map[];
      predictions := DefaultPredictions();
    }

    /** `update_context`: takes the mode and mirrors four context fields into the session. */
    method UpdateContext(ctx: SystemContext)
      requires Valid()
      modifies this
      ensures Valid()
      ensures mode == ctx.mode && session == MirrorContext(old(session), ctx)
      ensures history == old(history) && prefs == old(prefs) && rules == old(rules)
      ensures transitions == old(transitions) && predictions == old(predictions)
    {
      mode := ctx.mode;
      session := session["audio_vad_enabled" := CtxBool(ctx.audio.vad_enabled)];
      session := session["audio_sensitivity" := CtxNumber(ctx.audio.sensitivity)];
      session := session["stt_instant_output" := CtxBool(ctx.stt.instant_output)];
      session := session["stt_model" := CtxString(ctx.stt.current_model)];
    }

    /** `set_session_var`. */
    method SetSessionVar(key: string, value: ContextValue)
      requires Valid()
      modifies this
      ensures Valid()
      ensures session == old(session)[key := value]
      ensures SessionVarOf(key) == Some(value)
      ensures mode == old(mode) && history == old(history) && prefs == old(prefs) && rules == old(rules)
      ensures transitions == old(transitions) && predictions == old(predictions)
    {
      session := session[key := value];
    }

    /** `get_session_var`. */
    function SessionVarOf(key: string): (r: Option<ContextValue>)
      reads this
      ensures r.Some? <==> key in session
    {
      if key in session then Some(session[key]) else None
    }

    /** `add_disambiguation_rule`. */
    method AddDisambiguationRule(rule: DisambiguationRule)
      requires Valid()
      modifies this
      ensures Valid()
      ensures rules == AddRule(old(rules), rule)
      ensures multiset(rules) == multiset(old(rules)) + multiset{rule}
      ensures mode == old(mode) && history == old(history) && session == old(session) && prefs == old(prefs)
      ensures transitions == old(transitions) && predictions == old(predictions)
    {
      rules := rules + [rule];
      rules := SortDesc(rules, RuleKey);
      AddRuleSorted(old(rules), rule);
    }

    /**
     * `record_command_execution`: remember the run (dropping the oldest of
     * more than 50) and, when learning is on, count it, bump its hour and
     * reinforce the transition from the previous command.
     */
    method RecordCommandExecution(executed: ExecutedCommand)
      requires Valid()
      modifies this
      ensures Valid()
      ensures history == PushBounded(old(history), executed, MaxHistory)
      ensures prefs == if old(prefs).learning_enabled then Learn(old(prefs), executed) else old(prefs)
      ensures transitions == if old(prefs).learning_enabled
                             then Transit(old(transitions), history, executed.command_name)
                             else old(transitions)
      ensures mode == old(mode) && session == old(session) && rules == old(rules) && predictions == old(predictions)
    {
      history := history + [executed];
      if |history| > MaxHistory {
        history := history[1..];
      }
      if prefs.learning_enabled {
        var name := executed.command_name;
        var usage := if name in prefs.time_based_usage then prefs.time_based_usage[name] else [];
        BumpHourCounts(usage, HourOf(executed.timestamp), 0);
        prefs := Learn(prefs, executed);
        TransitBounded(transitions, history, name);
        transitions := Transit(transitions, history, name);
      }
    }

    /** `resolve_ambiguous_command`. */
    method ResolveAmbiguousCommand(input: string, now: nat, hour: nat) returns (r: seq<ResolvedCommand>)
      ensures r == ResolveOf(rules, prefs, predictions, At(now, hour), input)
    {
      var s := At(now, hour);
      var candidates: seq<ResolvedCommand> := [];
      for i := 0 to |rules|
        invariant candidates == RuleCandidates(rules[..i], input, s)
      {
        var rule := rules[i];
        assert rules[..i + 1][..i] == rules[..i];
        if RuleFires(rule, input, s) {
          candidates := candidates + [ResolvedCommand(rule.resolved_command, RuleConfidence(rule.priority),
                                                      Disambiguation, MatchingFactors(rule.conditions, s))];
        }
      }
      assert rules[..|rules|] == rules;
      if input in prefs.preferred_patterns {
        candidates := candidates + [ResolvedCommand(prefs.preferred_patterns[input], 0.85, UserLearning,
                                                    [Tag("user_preference")])];
      }
      var ps := ModePredictions(predictions, mode);
      var lowered := ToLower(input);
      var base := candidates;
      for i := 0 to |ps|
        invariant candidates == base + PredictionCandidates(ps[..i], lowered)
      {
        assert ps[..i + 1][..i] == ps[..i];
        if Contains(ps[i], lowered) {
          candidates := candidates + [ResolvedCommand(ps[i], 0.7, ContextPrediction, [Tag("context_prediction")])];
        }
      }
      assert ps[..|ps|] == ps;
      r := SortDesc(candidates, ResolvedConfidence);
    }

    /** The frequency suggestions, one per frequent command, its confidence its count over a hundred, at most 0.8. */
    method SuggestFrequent(frequent: seq<(string, nat)>) returns (more: seq<NextSuggestion>)
      ensures more == FrequencySuggestions(frequent)
    {
      more := [];
      for i := 0 to |frequent|
        invariant more == FrequencySuggestions(frequent[..i])
      {
        assert frequent[..i + 1][..i] == frequent[..i];
        more := more + [NextSuggestion(frequent[i].0, System, "frequency", MinReal(frequent[i].1 as real / 100.0, 0.8))];
      }
      assert frequent[..|frequent|] == frequent;
    }

    /** `suggest_next_commands`; `order` is the iteration order of the frequency map. */
    method SuggestNextCommands(now: nat, hour: nat, order: seq<string>) returns (r: seq<NextSuggestion>)
      requires IsOrderOf(order, prefs.command_frequency.Keys)
      ensures r == NextOf(transitions, prefs.command_frequency, order, At(now, hour))
    {
      var suggestions := CollectSuggestions(now, hour, order);
      r := Take(DedupByName(SortDesc(suggestions, SuggestionConfidence)), MaxNextSuggestions);
    }

    /** The collecting half of `suggest_next_commands`: mode, transition and frequency suggestions, in that order. */
    method CollectSuggestions(now: nat, hour: nat, order: seq<string>) returns (r: seq<NextSuggestion>)
      requires IsOrderOf(order, prefs.command_frequency.Keys)
      ensures r == NextCandidates(transitions, prefs.command_frequency, order, At(now, hour))
    {
      var after := SuggestionsAfterLast(now, hour);
      var frequent := FrequentCommands(prefs.command_frequency, order, 5);
      var more := SuggestFrequent(frequent);
      r := ModeSuggestions(mode) + after + more;
    }

    /** The transitions out of the newest remembered command whose conditions hold. */
    method SuggestionsAfterLast(now: nat, hour: nat) returns (r: seq<NextSuggestion>)
      ensures r == AfterLast(transitions, At(now, hour))
    {
      var s := At(now, hour);
      r := [];
      if |history| > 0 && history[|history| - 1].command_name in transitions {
        var ts := transitions[history[|history| - 1].command_name];
        for i := 0 to |ts|
          invariant r == TransitionSuggestions(ts[..i], s)
        {
          assert ts[..i + 1][..i] == ts[..i];
          if CheckConditions(ts[i].conditions, s) {
            r := r + [NextSuggestion(ts[i].next_command, System, "transition", ts[i].probability)];
          }
        }
        assert ts[..|ts|] == ts;
      }
    }

    /** `get_command_completions`; `order` is the iteration order of the preferred-pattern map. */
    method GetCommandCompletions(partial: string, order: seq<string>) returns (r: seq<string>)
      requires IsOrderOf(order, prefs.preferred_patterns.Keys)
      ensures r == CompletionsOf(prefs, order, mode, partial)
    {
      var completions: seq<string> := [];
      for i := 0 to |order|
        invariant completions == WithPrefix(order[..i], partial)
      {
        assert order[..i + 1][..i] == order[..i];
        if StartsWith(order[i], partial) {
          completions := completions + [order[i]];
        }
      }
      assert order[..|order|] == order;
      var preferred := ContextPreferred(prefs, mode);
      var base := completions;
      for i := 0 to |preferred|
        invariant completions == base + WithPrefix(preferred[..i], partial)
      {
        assert preferred[..i + 1][..i] == preferred[..i];
        if StartsWith(preferred[i], partial) {
          completions := completions + [preferred[i]];
        }
      }
      assert preferred[..|preferred|] == preferred;
      completions := SortLex(completions);
      r := Dedup(completions);
    }
  }

  // ---------------------------------------------------------------------
  // The module's own scenarios
  // ---------------------------------------------------------------------

  /** Two recorded runs of the same command count it twice. */
  method FrequencyLearningScenario(executed: ExecutedCommand) returns (count: Option<nat>)
    ensures count == Some(2)
  {
    var manager := new CommandContextManager();
    manager.RecordCommandExecution(executed);
    manager.RecordCommandExecution(executed);
    var name := executed.command_name;
    count := if name in manager.prefs.command_frequency then Some(manager.prefs.command_frequency[name]) else None;
  }

  /** The rule set of the scenario below: "record" means start_recording in normal mode. */
  lemma RecordRuleResolves(rules: seq<DisambiguationRule>, prefs: UserPreferences,
                           predictions: map<string, seq<string>>, s: Situation, input: string)
    requires rules == [DisambiguationRule("record", [Mode(Normal)], "start_recording", 10)]
    requires s.mode == Normal && input == "record audio"
    ensures var r := ResolveOf(rules, prefs, predictions, s, input);
      |r| > 0 && r[0].command_name == "start_recording"
  {
    var rule := rules[0];
    assert OccursAt(input, "record", 0);
    assert RuleFires(rule, input, s);
    assert rules[..0] == [];
    assert rules[|rules| - 1] == rule && rules[..|rules| - 1] == [];
    assert RuleCandidates(rules[..0], input, s) == [];
    var rc := RuleCandidates(rules, input, s);
    assert |rc| == 1 && rc[0].command_name == "start_recording";
    ResolveShape(rules, prefs, predictions, s, input);
    var r := ResolveOf(rules, prefs, predictions, s, input);
    var cands := ResolveCandidates(rules, prefs, predictions, s, input);
    InMultisetMembers(r, cands, r[0]);
    assert r[0] in rc;
  }

  /** A "record" rule for normal mode resolves "record audio" to start_recording first. */
  method DisambiguationScenario(now: nat, hour: nat) returns (first: string)
    ensures first == "start_recording"
  {
    var manager := new CommandContextManager();
    var rule := DisambiguationRule("record", [Mode(Normal)], "start_recording", 10);
    manager.AddDisambiguationRule(rule);
    assert manager.rules == [rule] by {
      assert |manager.rules| == 1 && manager.rules[0] in multiset(manager.rules);
    }
    var resolved := manager.ResolveAmbiguousCommand("record audio", now, hour);
    RecordRuleResolves(manager.rules, manager.prefs, manager.predictions, manager.At(now, hour), "record audio");
    first := resolved[0].command_name;
  }

  /** In narration mode, with nothing learned, the suggestion is to stop narrating. */
  method NarrationSuggestionScenario(now: nat, hour: nat) returns (found: bool)
    ensures found
  {
    var manager := new CommandContextManager();
    manager.mode := Narration;
    var suggestions := manager.SuggestNextCommands(now, hour, []);
    NextWithoutHistory(manager.transitions, Narration, manager.session, now, hour);
    found := exists i :: 0 <= i < |suggestions| && suggestions[i].command_name == "disable_narration";
    assert suggestions[0].command_name == "disable_narration";
  }
}
