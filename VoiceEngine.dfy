/**
 * The voice-command engine: a registry of commands by name, a flat list of
 * patterns tried in order, a dispatcher that runs the selected command
 * against the shared `SystemContext`, counts outcomes and keeps a bounded
 * history, and a scorer that ranks commands for a partial utterance.
 *
 * The matcher, the dispatcher and the scorer are each specified by a pure
 * function of the engine's state (`ParseOf`, `ExecuteOf`, `SuggestionsOf`);
 * the class's methods are proved to compute them, and the lemmas below state
 * what the program promises about those functions.
 */
module VoiceEngine {
  import opened Common
  import opened Regexes
  import opened VoiceTypes
  import C = Catalog

  // ---------------------------------------------------------------------
  // Data
  // ---------------------------------------------------------------------

  /** A pattern in the matcher's list, tagged with the command it selects. */
  datatype CommandPattern = CommandPattern(pattern: PatternType, command_name: string, priority: nat, enabled: bool)

  /** The priority `register_command` gives every pattern. */
  const DefaultPriority: nat := 5

  /** The timeout is kept as a number of milliseconds; the model does not run handlers under a clock. */
  datatype VoiceCommandConfig = VoiceCommandConfig(
    max_history_size: nat,
    command_timeout_ms: nat,
    enable_fuzzy_matching: bool,
    fuzzy_threshold: real,
    enable_suggestions: bool,
    enable_learning: bool,
    case_sensitive: bool)

  function DefaultConfig(): VoiceCommandConfig
  {
    VoiceCommandConfig(100, 10000, true, 0.8, true, true, false)
  }

  /** Outcome counters; the running average of execution times is not modelled. */
  datatype CommandMetrics = CommandMetrics(
    total_commands: nat,
    successful_commands: nat,
    failed_commands: nat,
    command_usage: map<string, nat>,
    error_counts: map<string, nat>)

  function NoMetrics(): CommandMetrics
  {
    CommandMetrics(0, 0, 0, map[], map[])
  }

  /** Which pattern selected a command: a direct match names it, a fuzzy match does not. */
  datatype MatchedPattern = Matched(pattern: PatternType) | FuzzyMatched

  datatype ParsedCommand = ParsedCommand(
    command_name: string,
    original_input: string,
    confidence: real,
    category: CommandCategory,
    matched_pattern: MatchedPattern)

  datatype CommandSuggestion = CommandSuggestion(
    command_name: string,
    category: CommandCategory,
    pattern: PatternType,
    confidence: real)

  /** What the scorer needs to know of one registered command. */
  datatype Registered = Registered(name: string, category: CommandCategory, patterns: seq<PatternType>)

  function EntryOf(c: C.Command): Registered
  {
    Registered(C.Name(c), C.Category(c), C.Patterns(c))
  }

  /** The category of every registered command, by name. */
  function Categories(cmds: map<string, C.Command>): map<string, CommandCategory>
  {
    map n | n in cmds :: C.Category(cmds[n])
  }

  /** The patterns `register_command` appends for a command called `name`. */
  function PatternsFor(name: string, ps: seq<PatternType>): seq<CommandPattern>
  {
    seq(|ps|, i requires 0 <= i < |ps| => CommandPattern(ps[i], name, DefaultPriority, true))
  }

  lemma PatternsForShape(name: string, ps: seq<PatternType>)
    ensures |PatternsFor(name, ps)| == |ps|
    ensures forall i :: 0 <= i < |ps| ==> PatternsFor(name, ps)[i].priority == DefaultPriority
    ensures forall i :: 0 <= i < |ps| ==> PatternsFor(name, ps)[i].command_name == name
  {
  }

  function PriorityKey(p: CommandPattern): real { p.priority as real }

  /** The loop of `register_command`: one default-priority pattern per phrase form, in order. */
  method BuildPatterns(name: string, ps: seq<PatternType>) returns (added: seq<CommandPattern>)
    ensures added == PatternsFor(name, ps)
  {
    added := [];
    for i := 0 to |ps|
      invariant added == PatternsFor(name, ps[..i])
    {
      assert PatternsFor(name, ps[..i + 1]) == PatternsFor(name, ps[..i]) + [CommandPattern(ps[i], name, DefaultPriority, true)];
      added := added + [CommandPattern(ps[i], name, DefaultPriority, true)];
    }
    assert ps[..|ps|] == ps;
  }

  /** Registering keeps every pattern at the default priority and naming a registered command. */
  lemma RegisteredPatterns(patterns: seq<CommandPattern>, commands: map<string, C.Command>,
                           command: C.Command, ps: seq<PatternType>)
    requires forall i :: 0 <= i < |patterns| ==>
      patterns[i].priority == DefaultPriority && patterns[i].command_name in commands
    requires ps == C.Patterns(command)
    ensures var all := patterns + PatternsFor(C.Name(command), ps);
      forall i :: 0 <= i < |all| ==>
        all[i].priority == DefaultPriority && all[i].command_name in commands[C.Name(command) := command]
    ensures var all := patterns + PatternsFor(C.Name(command), ps);
      forall i :: 0 <= i < |all| ==> PriorityKey(all[i]) == DefaultPriority as real
  {
    var all := patterns + PatternsFor(C.Name(command), ps);
    PatternsForShape(C.Name(command), ps);
    forall i | 0 <= i < |all|
      ensures all[i].priority == DefaultPriority && all[i].command_name in commands[C.Name(command) := command]
    {
      if i >= |patterns| {
        assert all[i] == PatternsFor(C.Name(command), ps)[i - |patterns|];
      }
    }
  }

  // ---------------------------------------------------------------------
  // Similarity
  // ---------------------------------------------------------------------

  lemma Ratio(d: nat, m: nat)
    requires 0 < m && d <= m
    ensures 0.0 <= d as real / m as real <= 1.0
    ensures d as real / m as real == 0.0 <==> d == 0
  {
    var q := d as real / m as real;
    assert q * m as real == d as real;
  }

  /**
   * One minus the edit distance over the longer length; two empty strings
   * are identical and an empty string is unlike any other.
   */
  function Similarity(a: string, b: string): (r: real)
    ensures 0.0 <= r <= 1.0
    ensures r == 1.0 <==> a == b
  {
    if |a| == 0 then (if |b| == 0 then 1.0 else 0.0)
    else if |b| == 0 then 0.0
    else
      EditDistanceUpper(a, b);
      EditDistanceZeroIff(a, b);
      Ratio(EditDistance(a, b), Max(|a|, |b|));
      1.0 - EditDistance(a, b) as real / Max(|a|, |b|) as real
  }

  lemma SimilaritySelf(a: string)
    ensures Similarity(a, a) == 1.0
  {
  }

  lemma SimilaritySymmetric(a: string, b: string)
    ensures Similarity(a, b) == Similarity(b, a)
  {
    EditDistanceSymmetric(a, b);
  }

  lemma DivMonotone(x: real, y: real, m: real)
    requires 0.0 < m && x <= y
    ensures x / m <= y / m
  {
    assert y / m - x / m == (y - x) / m;
  }

  /** An edit distance of at most `d` between non-empty strings bounds the similarity from below. */
  lemma SimilarityAtLeast(a: string, b: string, d: nat)
    requires |a| > 0 && |b| > 0 && EditDistance(a, b) <= d
    ensures Similarity(a, b) >= 1.0 - d as real / Max(|a|, |b|) as real
  {
    DivMonotone(EditDistance(a, b) as real, d as real, Max(|a|, |b|) as real);
  }

  /** `calculate_similarity`: the dynamic programming table of edit distances. */
  method CalculateSimilarity(a: string, b: string) returns (r: real)
    ensures r == Similarity(a, b)
  {
    if |a| == 0 {
      return if |b| == 0 then 1.0 else 0.0;
    }
    if |b| == 0 {
      return 0.0;
    }
    var distance := LevenshteinMatrix(a, b);
    var maxLen := if |a| >= |b| then |a| else |b|;
    r := 1.0 - distance as real / maxLen as real;
  }

  // ---------------------------------------------------------------------
  // Matching
  // ---------------------------------------------------------------------

  predicate PatternMatches(p: PatternType, input: string)
  {
    match p
    case Exact(t) => input == t
    case ContainsText(t) => Contains(input, t)
    case Regex(rx) => IsMatch(rx, input)
    case Fuzzy(t, threshold) => Similarity(t, input) >= threshold
  }

  /** `pattern_matches`. */
  method MatchPattern(p: PatternType, input: string) returns (b: bool)
    ensures b == PatternMatches(p, input)
  {
    match p
    case Exact(t) => b := input == t;
    case ContainsText(t) => b := Contains(input, t);
    case Regex(rx) => b := IsMatch(rx, input);
    case Fuzzy(t, threshold) =>
      var similarity := CalculateSimilarity(t, input);
      b := similarity >= threshold;
  }

  /** A pattern that selects its command directly: enabled, matching, and naming a registered command. */
  predicate DirectHit(p: CommandPattern, cats: map<string, CommandCategory>, input: string)
  {
    p.enabled && PatternMatches(p.pattern, input) && p.command_name in cats
  }

  /** The first direct hit at or after `from`. */
  function FirstDirect(ps: seq<CommandPattern>, cats: map<string, CommandCategory>, input: string, from: nat): (r: Option<nat>)
    requires from <= |ps|
    ensures r.Some? ==> from <= r.value < |ps| && DirectHit(ps[r.value], cats, input)
    ensures r.Some? ==> forall j :: from <= j < r.value ==> !DirectHit(ps[j], cats, input)
    ensures r.None? ==> forall j :: from <= j < |ps| ==> !DirectHit(ps[j], cats, input)
    decreases |ps| - from
  {
    if from == |ps| then None
    else if DirectHit(ps[from], cats, input) then Some(from)
    else FirstDirect(ps, cats, input, from + 1)
  }

  /** The similarity fuzzy matching gives a pattern, when it considers the pattern at all. */
  function FuzzyScore(p: CommandPattern, input: string): Option<real>
  {
    if !p.enabled || p.pattern.Regex? then None
    else Some(Similarity(p.pattern.text, input))
  }

  predicate Qualifies(p: CommandPattern, input: string, threshold: real)
  {
    FuzzyScore(p, input).Some? && FuzzyScore(p, input).value >= threshold
  }

  /**
   * The best fuzzy candidate among the first `n` patterns: it reaches the
   * threshold, no candidate scores higher, and every earlier candidate
   * scores strictly lower (ties keep the earliest).
   */
  function BestFuzzy(ps: seq<CommandPattern>, input: string, threshold: real, n: nat): (r: Option<nat>)
    requires n <= |ps|
    ensures r.Some? ==> r.value < n && Qualifies(ps[r.value], input, threshold)
    ensures r.Some? ==> forall j :: 0 <= j < n && Qualifies(ps[j], input, threshold) ==>
      FuzzyScore(ps[j], input).value <= FuzzyScore(ps[r.value], input).value
    ensures r.Some? ==> forall j :: 0 <= j < r.value && Qualifies(ps[j], input, threshold) ==>
      FuzzyScore(ps[j], input).value < FuzzyScore(ps[r.value], input).value
    ensures r.None? ==> forall j :: 0 <= j < n ==> !Qualifies(ps[j], input, threshold)
  {
    if n == 0 then None
    else
      var b := BestFuzzy(ps, input, threshold, n - 1);
      if Qualifies(ps[n - 1], input, threshold)
         && (b.None? || FuzzyScore(ps[n - 1], input).value > FuzzyScore(ps[b.value], input).value)
      then Some(n - 1)
      else b
  }

  /** What `fuzzy_match` returns: the best candidate, provided its command is registered. */
  function FuzzyMatchOf(ps: seq<CommandPattern>, cats: map<string, CommandCategory>, threshold: real, input: string): Option<ParsedCommand>
  {
    match BestFuzzy(ps, input, threshold, |ps|)
    case None => None
    case Some(k) =>
      var name := ps[k].command_name;
      if name in cats then Some(ParsedCommand(name, input, FuzzyScore(ps[k], input).value, cats[name], FuzzyMatched))
      else None
  }

  /** The text the matcher works on. */
  function Normalized(config: VoiceCommandConfig, input: string): string
  {
    if config.case_sensitive then input else ToLower(input)
  }

  /** What `parse_command` returns. */
  function ParseOf(ps: seq<CommandPattern>, cats: map<string, CommandCategory>, config: VoiceCommandConfig, input: string)
    : Result<ParsedCommand, VoiceCommandError>
  {
    var text := Normalized(config, input);
    match FirstDirect(ps, cats, text, 0)
    case Some(i) =>
      Ok(ParsedCommand(ps[i].command_name, text, 1.0, cats[ps[i].command_name], Matched(ps[i].pattern)))
    case None =>
      var f := if config.enable_fuzzy_matching then FuzzyMatchOf(ps, cats, config.fuzzy_threshold, text) else None;
      if f.Some? then Ok(f.value) else Err(CommandNotFound(text))
  }

  /** The first direct hit in list order wins, with confidence exactly 1. */
  lemma ParseFirstHit(ps: seq<CommandPattern>, cats: map<string, CommandCategory>, config: VoiceCommandConfig, input: string, i: nat)
    requires i < |ps|
    requires DirectHit(ps[i], cats, Normalized(config, input))
    requires forall j :: 0 <= j < i ==> !DirectHit(ps[j], cats, Normalized(config, input))
    ensures ParseOf(ps, cats, config, input)
      == Ok(ParsedCommand(ps[i].command_name, Normalized(config, input), 1.0, cats[ps[i].command_name], Matched(ps[i].pattern)))
  {
    var r := FirstDirect(ps, cats, Normalized(config, input), 0);
    assert r.Some?;
  }

  /**
   * Without a direct hit, a successful parse is a fuzzy one: some enabled,
   * non-regex pattern of the command scores exactly its confidence, which
   * reaches the threshold and which no other candidate exceeds.
   */
  lemma ParseFuzzy(ps: seq<CommandPattern>, cats: map<string, CommandCategory>, config: VoiceCommandConfig, input: string)
    requires forall j :: 0 <= j < |ps| ==> !DirectHit(ps[j], cats, Normalized(config, input))
    requires ParseOf(ps, cats, config, input).Ok?
    ensures var p := ParseOf(ps, cats, config, input).value;
      var text := Normalized(config, input);
      && config.enable_fuzzy_matching
      && p.matched_pattern == FuzzyMatched
      && p.command_name in cats && p.category == cats[p.command_name]
      && p.confidence >= config.fuzzy_threshold
      && (exists k :: 0 <= k < |ps| && ps[k].command_name == p.command_name
                      && Qualifies(ps[k], text, config.fuzzy_threshold)
                      && FuzzyScore(ps[k], text).value == p.confidence)
      && (forall j :: 0 <= j < |ps| && Qualifies(ps[j], text, config.fuzzy_threshold) ==>
            FuzzyScore(ps[j], text).value <= p.confidence)
  {
    var text := Normalized(config, input);
    var r := FirstDirect(ps, cats, text, 0);
    assert r.None?;
    var b := BestFuzzy(ps, text, config.fuzzy_threshold, |ps|);
    assert b.Some?;
    var k := b.value;
    assert ps[k].command_name == ParseOf(ps, cats, config, input).value.command_name;
  }

  /** A failed parse reports the normalised input, and happens only when nothing matched directly or fuzzily. */
  lemma ParseNotFound(ps: seq<CommandPattern>, cats: map<string, CommandCategory>, config: VoiceCommandConfig, input: string)
    ensures var text := Normalized(config, input);
      ParseOf(ps, cats, config, input).Err? <==>
        (forall j :: 0 <= j < |ps| ==> !DirectHit(ps[j], cats, text))
        && (config.enable_fuzzy_matching ==> FuzzyMatchOf(ps, cats, config.fuzzy_threshold, text).None?)
    ensures ParseOf(ps, cats, config, input).Err? ==>
      ParseOf(ps, cats, config, input).error == CommandNotFound(Normalized(config, input))
  {
    var text := Normalized(config, input);
    var r := FirstDirect(ps, cats, text, 0);
    if r.Some? {
      assert DirectHit(ps[r.value], cats, text);
    }
  }

  /** Unless matching is case-sensitive, the parse cannot tell an input from its lower-case form. */
  lemma ParseIgnoresCase(ps: seq<CommandPattern>, cats: map<string, CommandCategory>, config: VoiceCommandConfig, input: string)
    requires !config.case_sensitive
    ensures ParseOf(ps, cats, config, input) == ParseOf(ps, cats, config, ToLower(input))
  {
    ToLowerIdempotent(input);
  }

  /** Every successful parse names a registered command and carries its category and a confidence in [0, 1]. */
  lemma ParseKnown(ps: seq<CommandPattern>, cats: map<string, CommandCategory>, config: VoiceCommandConfig, input: string)
    requires ParseOf(ps, cats, config, input).Ok?
    ensures var p := ParseOf(ps, cats, config, input).value;
      p.command_name in cats && p.category == cats[p.command_name]
      && 0.0 <= p.confidence <= 1.0
      && p.original_input == Normalized(config, input)
  {
  }

  // ---------------------------------------------------------------------
  // Suggestions
  // ---------------------------------------------------------------------

  /** `calculate_suggestion_score`: prefix 0.9, substring 0.7, otherwise half of a similarity above 0.6. */
  function SuggestionScore(p: PatternType, input: string): (r: Option<real>)
    ensures r.Some? ==> 0.3 < r.value <= 0.9
    ensures p.Regex? ==> r.None?
  {
    if p.Regex? then None
    else if StartsWith(p.text, input) then Some(0.9)
    else if Contains(p.text, input) then Some(0.7)
    else
      var similarity := Similarity(p.text, input);
      if similarity > 0.6 then Some(similarity * 0.5) else None
  }

  /** A pattern that the input begins scores at least as high as any other pattern. */
  lemma PrefixScoresHighest(p: PatternType, q: PatternType, input: string)
    requires !p.Regex? && StartsWith(p.text, input)
    requires SuggestionScore(q, input).Some?
    ensures SuggestionScore(p, input) == Some(0.9)
    ensures SuggestionScore(q, input).value <= SuggestionScore(p, input).value
  {
  }

  /** A substring match outranks every match by similarity alone. */
  lemma SubstringOutranksSimilarity(p: PatternType, q: PatternType, input: string)
    requires !p.Regex? && Contains(p.text, input)
    requires !q.Regex? && !Contains(q.text, input) && SuggestionScore(q, input).Some?
    ensures SuggestionScore(p, input).value >= 0.7
    ensures SuggestionScore(q, input).value <= 0.5
  {
    if StartsWith(q.text, input) {
      ContainsPrefix(q.text, input);
    }
  }

  /** The empty input is a prefix of every pattern. */
  lemma EmptyInputScores(p: PatternType)
    ensures SuggestionScore(p, "") == if p.Regex? then None else Some(0.9)
  {
  }

  function Confidence(s: CommandSuggestion): real { s.confidence }

  /** The scored patterns of one command, in pattern order. */
  function SuggestionsFrom(e: Registered, ps: seq<PatternType>, input: string): seq<CommandSuggestion>
  {
    if |ps| == 0 then []
    else
      var last := ps[|ps| - 1];
      SuggestionsFrom(e, ps[..|ps| - 1], input)
        + match SuggestionScore(last, input)
          case None => []
          case Some(s) => [CommandSuggestion(e.name, e.category, last, s)]
  }

  /** Every candidate of the listed commands, in iteration order. */
  function Candidates(es: seq<Registered>, input: string): seq<CommandSuggestion>
  {
    if |es| == 0 then []
    else Candidates(es[..|es| - 1], input) + SuggestionsFrom(es[|es| - 1], es[|es| - 1].patterns, input)
  }

  /** The maximum number of suggestions returned. */
  const MaxSuggestions: nat := 10

  /** What `get_suggestions` returns for commands visited in the order `es`. */
  function SuggestionsOf(es: seq<Registered>, config: VoiceCommandConfig, partial: string): seq<CommandSuggestion>
  {
    if !config.enable_suggestions then []
    else Take(SortDesc(Candidates(es, ToLower(partial)), Confidence), MaxSuggestions)
  }

  lemma {:induction false} SuggestionsFromSound(e: Registered, ps: seq<PatternType>, input: string)
    ensures forall s :: s in SuggestionsFrom(e, ps, input) ==>
      s.command_name == e.name && s.category == e.category && s.pattern in ps
      && SuggestionScore(s.pattern, input) == Some(s.confidence)
  {
    if |ps| > 0 {
      SuggestionsFromSound(e, ps[..|ps| - 1], input);
    }
  }

  lemma {:induction false} CandidatesSound(es: seq<Registered>, input: string)
    ensures forall s :: s in Candidates(es, input) ==>
      exists i :: 0 <= i < |es| && s.command_name == es[i].name && s.category == es[i].category
        && s.pattern in es[i].patterns && SuggestionScore(s.pattern, input) == Some(s.confidence)
  {
    if |es| > 0 {
      var init := es[..|es| - 1];
      var e := es[|es| - 1];
      CandidatesSound(init, input);
      SuggestionsFromSound(e, e.patterns, input);
      forall s | s in Candidates(es, input)
        ensures exists i :: (0 <= i < |es| && s.command_name == es[i].name && s.category == es[i].category
          && s.pattern in es[i].patterns && SuggestionScore(s.pattern, input) == Some(s.confidence))
      {
        if s in Candidates(init, input) {
          var i :| 0 <= i < |init| && s.command_name == init[i].name && s.category == init[i].category
            && s.pattern in init[i].patterns && SuggestionScore(s.pattern, input) == Some(s.confidence);
          assert es[i] == init[i];
        } else {
          assert s in SuggestionsFrom(e, e.patterns, input);
          assert es[|es| - 1] == e;
        }
      }
    }
  }

  /**
   * The suggestions are sorted by descending score, at most ten, each one a
   * scored pattern of one of the commands, and empty when suggestions are off.
   */
  lemma SuggestionsShape(es: seq<Registered>, config: VoiceCommandConfig, partial: string)
    ensures var r := SuggestionsOf(es, config, partial);
      && |r| <= MaxSuggestions
      && SortedDesc(r, Confidence)
      && (!config.enable_suggestions ==> r == [])
      && (forall s :: s in r ==> s in Candidates(es, ToLower(partial)))
  {
    var cs := Candidates(es, ToLower(partial));
    var sorted := SortDesc(cs, Confidence);
    SortDescSorted(cs, Confidence);
    var r := SuggestionsOf(es, config, partial);
    if config.enable_suggestions {
      forall s | s in r ensures s in cs {
        assert s in sorted;
        assert s in multiset(sorted);
      }
    }
  }

  /** The first suggestion scores at least as high as every candidate. */
  lemma SuggestionsTopIsBest(es: seq<Registered>, config: VoiceCommandConfig, partial: string)
    requires |SuggestionsOf(es, config, partial)| > 0
    ensures forall s :: s in Candidates(es, ToLower(partial)) ==>
      s.confidence <= SuggestionsOf(es, config, partial)[0].confidence
  {
    var cs := Candidates(es, ToLower(partial));
    var sorted := SortDesc(cs, Confidence);
    SortDescSorted(cs, Confidence);
    forall s | s in cs ensures s.confidence <= sorted[0].confidence {
      assert s in multiset(sorted);
      var k :| 0 <= k < |sorted| && sorted[k] == s;
      if k > 0 {
        assert Confidence(sorted[0]) >= Confidence(sorted[k]);
      }
    }
  }

  /** With ten candidates or fewer, every candidate is suggested. */
  lemma SuggestionsKeepAllWhenFew(es: seq<Registered>, config: VoiceCommandConfig, partial: string)
    requires config.enable_suggestions
    requires |Candidates(es, ToLower(partial))| <= MaxSuggestions
    ensures multiset(SuggestionsOf(es, config, partial)) == multiset(Candidates(es, ToLower(partial)))
  {
  }

  /** `calculate_suggestion_score`, computing the similarity with the table. */
  method ScoreSuggestion(p: PatternType, input: string) returns (r: Option<real>)
    ensures r == SuggestionScore(p, input)
  {
    if p.Regex? {
      return None;
    }
    var t := p.text;
    if StartsWith(t, input) {
      return Some(0.9);
    }
    if Contains(t, input) {
      return Some(0.7);
    }
    var similarity := CalculateSimilarity(t, input);
    r := if similarity > 0.6 then Some(similarity * 0.5) else None;
  }

  // ---------------------------------------------------------------------
  // Dispatch
  // ---------------------------------------------------------------------

  /** The part of the engine's state that running a command changes. */
  datatype EngineState = EngineState(context: SystemContext, metrics: CommandMetrics, history: seq<ExecutedCommand>)

  datatype Step = Step(result: Result<CommandResult, VoiceCommandError>, state: EngineState)

  function Failed(m: CommandMetrics, e: VoiceCommandError): CommandMetrics
  {
    m.(failed_commands := m.failed_commands + 1, error_counts := Bump(m.error_counts, ErrorText(e)))
  }

  function Succeeded(m: CommandMetrics, name: string): CommandMetrics
  {
    m.(successful_commands := m.successful_commands + 1,
       total_commands := m.total_commands + 1,
       command_usage := Bump(m.command_usage, name))
  }

  /**
   * What `execute_command` does with what a handler returned: an error is
   * counted and leaves the history alone; a result is counted and pushed
   * onto the bounded history, stamped with `env.now`.
   */
  function Settle(config: VoiceCommandConfig, st: EngineState, parsed: ParsedCommand, params: CommandParams,
                  env: Env, o: Outcome): (s: Step)
    requires |st.history| <= config.max_history_size
    ensures |s.state.history| <= config.max_history_size
  {
    match o.result
    case Err(e) => Step(Err(e), st.(context := o.ctx, metrics := Failed(st.metrics, e)))
    case Ok(res) =>
      var executed := ExecutedCommand(parsed.command_name, parsed.category, params.text, res, env.now);
      Step(Ok(res), EngineState(o.ctx, Succeeded(st.metrics, parsed.command_name),
                                PushBounded(st.history, executed, config.max_history_size)))
  }

  /** What `execute_command` does: an unknown name is an error that changes nothing; a known one runs its handler. */
  function ExecuteOf(cmds: map<string, C.Command>, config: VoiceCommandConfig, st: EngineState,
                     parsed: ParsedCommand, params: CommandParams, env: Env): (s: Step)
    requires |st.history| <= config.max_history_size
    ensures |s.state.history| <= config.max_history_size
  {
    var name := parsed.command_name;
    if name !in cmds then Step(Err(CommandNotFound(name)), st)
    else Settle(config, st, parsed, params, env, C.Execute(cmds[name], params, st.context, env))
  }

  /**
   * A handler error is returned as it is: the context the handler left,
   * one more failure, one more count under the error's text, and the
   * history and the other counters as they were.
   */
  lemma SettleFailure(config: VoiceCommandConfig, st: EngineState, parsed: ParsedCommand, params: CommandParams,
                      env: Env, o: Outcome)
    requires |st.history| <= config.max_history_size
    requires o.result.Err?
    ensures var s := Settle(config, st, parsed, params, env, o);
      var e := o.result.error;
      && s.result == Err(e)
      && s.state.history == st.history
      && s.state.context == o.ctx
      && s.state.metrics.failed_commands == st.metrics.failed_commands + 1
      && s.state.metrics.successful_commands == st.metrics.successful_commands
      && s.state.metrics.total_commands == st.metrics.total_commands
      && s.state.metrics.command_usage == st.metrics.command_usage
      && ErrorText(e) in s.state.metrics.error_counts
      && s.state.metrics.error_counts[ErrorText(e)]
         == (if ErrorText(e) in st.metrics.error_counts then st.metrics.error_counts[ErrorText(e)] else 0) + 1
  {
  }

  /**
   * A successful run counts one more success, one more command and one more
   * use of its name, leaves the failures alone, and appends the run to the
   * back of the history, evicting the oldest entry when the history is full.
   */
  lemma SettleSuccess(config: VoiceCommandConfig, st: EngineState, parsed: ParsedCommand, params: CommandParams,
                      env: Env, o: Outcome)
    requires |st.history| <= config.max_history_size
    requires o.result.Ok?
    ensures var s := Settle(config, st, parsed, params, env, o);
      var name := parsed.command_name;
      var executed := ExecutedCommand(name, parsed.category, params.text, o.result.value, env.now);
      && s.result == o.result
      && s.state.context == o.ctx
      && s.state.metrics.successful_commands == st.metrics.successful_commands + 1
      && s.state.metrics.total_commands == st.metrics.total_commands + 1
      && s.state.metrics.failed_commands == st.metrics.failed_commands
      && s.state.metrics.error_counts == st.metrics.error_counts
      && name in s.state.metrics.command_usage
      && s.state.metrics.command_usage[name]
         == (if name in st.metrics.command_usage then st.metrics.command_usage[name] else 0) + 1
      && (|st.history| < config.max_history_size ==> s.state.history == st.history + [executed])
      && (0 < |st.history| == config.max_history_size ==> s.state.history == st.history[1..] + [executed])
  {
  }

  /** Only successes are counted in the total, so the two counters stay equal, and no run is lost from the counts. */
  lemma SettleKeepsTotals(config: VoiceCommandConfig, st: EngineState, parsed: ParsedCommand, params: CommandParams,
                          env: Env, o: Outcome)
    requires |st.history| <= config.max_history_size
    requires st.metrics.total_commands == st.metrics.successful_commands
    ensures var m := Settle(config, st, parsed, params, env, o).state.metrics;
      m.total_commands == m.successful_commands
      && m.total_commands + m.failed_commands == st.metrics.total_commands + st.metrics.failed_commands + 1
  {
  }

  /** Right after a successful run, the newest entry is that run. */
  lemma RecentAfterSuccess(config: VoiceCommandConfig, st: EngineState, parsed: ParsedCommand, params: CommandParams,
                           env: Env, o: Outcome)
    requires 0 < config.max_history_size && |st.history| <= config.max_history_size
    requires o.result.Ok?
    ensures var s := Settle(config, st, parsed, params, env, o);
      Recent(s.state.history, 1) == [ExecutedCommand(parsed.command_name, parsed.category, params.text,
                                                     o.result.value, env.now)]
  {
  }

  /** `get_recent_commands`: newest first, at most `limit`. */
  function Recent(history: seq<ExecutedCommand>, limit: nat): (r: seq<ExecutedCommand>)
    ensures |r| == if limit < |history| then limit else |history|
    ensures forall i :: 0 <= i < |r| ==> r[i] == history[|history| - 1 - i]
  {
    Take(Reverse(history), limit)
  }

  /** What `process_voice_input` does: parse the utterance, then run what it names with the utterance as spoken. */
  function ProcessOf(ps: seq<CommandPattern>, cmds: map<string, C.Command>, config: VoiceCommandConfig,
                     st: EngineState, input: string, confidence: real, env: Env): (s: Step)
    requires |st.history| <= config.max_history_size
    ensures |s.state.history| <= config.max_history_size
  {
    match ParseOf(ps, Categories(cmds), config, input)
    case Err(e) => Step(Err(e), st)
    case Ok(p) => ExecuteOf(cmds, config, st, p, CommandParams(input, confidence), env)
  }

  /** An utterance that does not parse changes nothing. */
  lemma ProcessUnparsed(ps: seq<CommandPattern>, cmds: map<string, C.Command>, config: VoiceCommandConfig,
                        st: EngineState, input: string, confidence: real, env: Env)
    requires |st.history| <= config.max_history_size
    requires ParseOf(ps, Categories(cmds), config, input).Err?
    ensures ProcessOf(ps, cmds, config, st, input, confidence, env)
      == Step(Err(CommandNotFound(Normalized(config, input))), st)
  {
    ParseNotFound(ps, Categories(cmds), config, input);
  }

  /** The handler and the history see the utterance as spoken, not its lower-case form. */
  lemma ProcessRecordsSpokenText(ps: seq<CommandPattern>, cmds: map<string, C.Command>, config: VoiceCommandConfig,
                                 st: EngineState, input: string, confidence: real, env: Env)
    requires |st.history| < config.max_history_size
    requires ProcessOf(ps, cmds, config, st, input, confidence, env).result.Ok?
    ensures var h := ProcessOf(ps, cmds, config, st, input, confidence, env).state.history;
      |h| == |st.history| + 1 && h[..|st.history|] == st.history && h[|st.history|].parameters == input
  {
    var p := ParseOf(ps, Categories(cmds), config, input);
    assert p.Ok?;
    ParseKnown(ps, Categories(cmds), config, input);
  }

  // ---------------------------------------------------------------------
  // Unregistering
  // ---------------------------------------------------------------------

  /** `retain(|p| p.command_name != name)`. */
  function WithoutCommand(ps: seq<CommandPattern>, name: string): (r: seq<CommandPattern>)
    ensures forall i :: 0 <= i < |r| ==> r[i].command_name != name
    ensures forall p :: p in r <==> p in ps && p.command_name != name
    ensures |r| <= |ps|
  {
    if |ps| == 0 then []
    else (if ps[0].command_name == name then [] else [ps[0]]) + WithoutCommand(ps[1..], name)
  }

  /** Order is kept: the filter distributes over concatenation. */
  lemma {:induction false} WithoutCommandAppend(a: seq<CommandPattern>, b: seq<CommandPattern>, name: string)
    ensures WithoutCommand(a + b, name) == WithoutCommand(a, name) + WithoutCommand(b, name)
  {
    if |a| > 0 {
      assert (a + b)[1..] == a[1..] + b;
      WithoutCommandAppend(a[1..], b, name);
    } else {
      assert a + b == b;
    }
  }

  /** Patterns of other commands survive untouched. */
  lemma {:induction false} WithoutCommandAbsent(ps: seq<CommandPattern>, name: string)
    requires forall i :: 0 <= i < |ps| ==> ps[i].command_name != name
    ensures WithoutCommand(ps, name) == ps
  {
    if |ps| > 0 {
      WithoutCommandAbsent(ps[1..], name);
    }
  }

  /** Patterns of the command itself all go. */
  lemma {:induction false} WithoutCommandAll(ps: seq<CommandPattern>, name: string)
    requires forall i :: 0 <= i < |ps| ==> ps[i].command_name == name
    ensures WithoutCommand(ps, name) == []
  {
    if |ps| > 0 {
      WithoutCommandAll(ps[1..], name);
    }
  }

  /** Registering a new command and unregistering it again restores the pattern list. */
  lemma RegisterThenUnregister(ps: seq<CommandPattern>, name: string, added: seq<PatternType>)
    requires forall i :: 0 <= i < |ps| ==> ps[i].command_name != name
    ensures WithoutCommand(ps + PatternsFor(name, added), name) == ps
  {
    WithoutCommandAppend(ps, PatternsFor(name, added), name);
    WithoutCommandAbsent(ps, name);
    WithoutCommandAll(PatternsFor(name, added), name);
  }

  // ---------------------------------------------------------------------
  // The engine
  // ---------------------------------------------------------------------

  class VoiceCommandEngine {
    var commands: map<string, C.Command>
    var patterns: seq<CommandPattern>
    var history: seq<ExecutedCommand>
    var context: SystemContext
    var config: VoiceCommandConfig
    var metrics: CommandMetrics

    /**
     * The history fits its bound, only successes are totalled, every command
     * is stored under its own name, and every pattern has the default
     * priority and belongs to a registered command.
     */
    predicate Valid()
      reads this
    {
      && |history| <= config.max_history_size
      && metrics.total_commands == metrics.successful_commands
      && (forall n :: n in commands ==> C.Name(commands[n]) == n)
      && (forall i :: 0 <= i < |patterns| ==>
            patterns[i].priority == DefaultPriority && patterns[i].command_name in commands)
    }

    function State(): EngineState
      reads this
    {
      EngineState(context, metrics, history)
    }

    /** `with_config`: an empty engine over the default context. */
    constructor WithConfig(config: VoiceCommandConfig, environment: EnvironmentContext)
      ensures Valid()
      ensures commands == map[] && patterns == [] && history == []
      ensures context == DefaultContext(environment) && this.config == config && metrics == NoMetrics()
    {
      commands := map[];
      patterns := [];
      history := [];
      context := DefaultContext(environment);
      this.config := config;
      metrics := NoMetrics();
    }

    /** `new`: the same with the default configuration. */
    constructor New(environment: EnvironmentContext)
      ensures Valid()
      ensures commands == map[] && patterns == [] && history == []
      ensures context == DefaultContext(environment) && config == DefaultConfig() && metrics == NoMetrics()
    {
      commands := map[];
      patterns := [];
      history := [];
      context := DefaultContext(environment);
      config := DefaultConfig();
      metrics := NoMetrics();
    }

    /**
     * Appends one enabled pattern of priority 5 per pattern of the command,
     * stores the command under its name (replacing any earlier one), and
     * re-sorts the patterns by priority, which leaves them as they are.
     */
    method RegisterCommand(command: C.Command) returns (r: Result<(), VoiceCommandError>)
      requires Valid()
      modifies this
      ensures Valid()
      ensures r.Ok?
      ensures commands == old(commands)[C.Name(command) := command]
      ensures patterns == old(patterns) + PatternsFor(C.Name(command), C.Patterns(command))
      ensures history == old(history) && context == old(context) && config == old(config) && metrics == old(metrics)
    {
      var name := C.Name(command);
      var ps := C.Patterns(command);
      var added := BuildPatterns(name, ps);
      var all := patterns + added;
      RegisteredPatterns(patterns, commands, command, ps);
      SortDescSameKeys(all, PriorityKey, DefaultPriority as real);
      commands := commands[name := command];
      patterns := SortDesc(all, PriorityKey);
      r := Ok(());
    }

    /** Removes the command and every pattern that selects it. */
    method UnregisterCommand(name: string) returns (r: Result<(), VoiceCommandError>)
      requires Valid()
      modifies this
      ensures Valid()
      ensures r.Ok?
      ensures commands == old(commands) - {name}
      ensures patterns == WithoutCommand(old(patterns), name)
      ensures history == old(history) && context == old(context) && config == old(config) && metrics == old(metrics)
    {
      commands := commands - {name};
      patterns := WithoutCommand(patterns, name);
      r := Ok(());
      forall i | 0 <= i < |patterns|
        ensures patterns[i].priority == DefaultPriority && patterns[i].command_name in commands
      {
        assert patterns[i] in old(patterns);
      }
    }

    /** `parse_command`: the first direct hit in list order, else the best fuzzy match, else not found. */
    method ParseCommand(input: string) returns (r: Result<ParsedCommand, VoiceCommandError>)
      ensures r == ParseOf(patterns, Categories(commands), config, input)
    {
      var text := if config.case_sensitive then input else ToLower(input);
      ghost var cats := Categories(commands);
      var i := 0;
      while i < |patterns|
        invariant 0 <= i <= |patterns|
        invariant FirstDirect(patterns, cats, text, 0) == FirstDirect(patterns, cats, text, i)
      {
        var p := patterns[i];
        if p.enabled {
          var matches := MatchPattern(p.pattern, text);
          if matches && p.command_name in commands {
            return Ok(ParsedCommand(p.command_name, text, 1.0, C.Category(commands[p.command_name]), Matched(p.pattern)));
          }
        }
        i := i + 1;
      }
      if config.enable_fuzzy_matching {
        var fuzzy := FuzzyMatch(text);
        if fuzzy.Some? {
          return Ok(fuzzy.value);
        }
      }
      r := Err(CommandNotFound(text));
    }

    /** `fuzzy_match`: the highest similarity at the threshold or above, earliest on ties. */
    method FuzzyMatch(input: string) returns (m: Option<ParsedCommand>)
      ensures m == FuzzyMatchOf(patterns, Categories(commands), config.fuzzy_threshold, input)
    {
      var threshold := config.fuzzy_threshold;
      var best: Option<(string, real)> := None;
      for i := 0 to |patterns|
        invariant var b := BestFuzzy(patterns, input, threshold, i);
          (b.None? <==> best.None?)
          && (b.Some? ==> best.value == (patterns[b.value].command_name, FuzzyScore(patterns[b.value], input).value))
      {
        var p := patterns[i];
        if p.enabled && !p.pattern.Regex? {
          var similarity := CalculateSimilarity(p.pattern.text, input);
          if similarity >= threshold {
            if best.Some? {
              if similarity > best.value.1 {
                best := Some((p.command_name, similarity));
              }
            } else {
              best := Some((p.command_name, similarity));
            }
          }
        }
      }
      if best.Some? && best.value.0 in commands {
        var name := best.value.0;
        m := Some(ParsedCommand(name, input, best.value.1, C.Category(commands[name]), FuzzyMatched));
      } else {
        m := None;
      }
    }

    /**
     * `execute_command`: runs the named command against the context and
     * updates the counters and the history as `ExecuteOf` says.
     */
    method ExecuteCommand(parsed: ParsedCommand, params: CommandParams, env: Env)
      returns (r: Result<CommandResult, VoiceCommandError>)
      requires Valid()
      modifies this
      ensures Valid()
      ensures var s := ExecuteOf(old(commands), old(config), old(State()), parsed, params, env);
        r == s.result && State() == s.state
      ensures commands == old(commands) && patterns == old(patterns) && config == old(config)
    {
      var name := parsed.command_name;
      if name !in commands {
        return Err(CommandNotFound(name));
      }
      var o := C.Execute(commands[name], params, context, env);
      r := RecordOutcome(parsed, params, env, o);
    }

    /** The bookkeeping of `execute_command` once the handler has returned `o`. */
    method RecordOutcome(parsed: ParsedCommand, params: CommandParams, env: Env, o: Outcome)
      returns (r: Result<CommandResult, VoiceCommandError>)
      requires Valid()
      modifies this
      ensures Valid()
      ensures var s := Settle(old(config), old(State()), parsed, params, env, o);
        r == s.result && State() == s.state
      ensures commands == old(commands) && patterns == old(patterns) && config == old(config)
    {
      context := o.ctx;
      if o.result.Err? {
        metrics := metrics.(failed_commands := metrics.failed_commands + 1,
                            error_counts := Bump(metrics.error_counts, ErrorText(o.result.error)));
        return Err(o.result.error);
      }
      metrics := metrics.(successful_commands := metrics.successful_commands + 1);
      metrics := metrics.(total_commands := metrics.total_commands + 1,
                          command_usage := Bump(metrics.command_usage, parsed.command_name));
      var executed := ExecutedCommand(parsed.command_name, parsed.category, params.text, o.result.value, env.now);
      history := history + [executed];
      if |history| > config.max_history_size {
        history := history[1..];
      }
      r := o.result;
    }

    /** `process_voice_input`: parse, then execute with the utterance as spoken. */
    method ProcessVoiceInput(input: string, confidence: real, env: Env)
      returns (r: Result<CommandResult, VoiceCommandError>)
      requires Valid()
      modifies this
      ensures Valid()
      ensures var s := ProcessOf(old(patterns), old(commands), old(config), old(State()), input, confidence, env);
        r == s.result && State() == s.state
      ensures commands == old(commands) && patterns == old(patterns) && config == old(config)
    {
      var params := CommandParams(input, confidence);
      var parsed := ParseCommand(input);
      if parsed.Err? {
        return Err(parsed.error);
      }
      r := ExecuteCommand(parsed.value, params, env);
    }

    /**
     * `get_suggestions`, visiting the commands in the order `order` (the
     * iteration order of the program's hash map, which lists each
     * registered name once).
     */
    method GetSuggestions(partial: string, order: seq<string>) returns (r: seq<CommandSuggestion>)
      requires NoDuplicates(order)
      requires forall n :: n in order <==> n in commands
      ensures r == SuggestionsOf(EntriesOf(commands, order), config, partial)
    {
      if !config.enable_suggestions {
        return [];
      }
      var input := ToLower(partial);
      var suggestions: seq<CommandSuggestion> := [];
      for i := 0 to |order|
        invariant suggestions == Candidates(EntriesOf(commands, order[..i]), input)
      {
        var command := commands[order[i]];
        var e := EntryOf(command);
        var ps := C.Patterns(command);
        ghost var before := suggestions;
        for j := 0 to |ps|
          invariant suggestions == before + SuggestionsFrom(e, ps[..j], input)
        {
          var score := ScoreSuggestion(ps[j], input);
          assert ps[..j + 1][..j] == ps[..j];
          if score.Some? {
            suggestions := suggestions + [CommandSuggestion(C.Name(command), C.Category(command), ps[j], score.value)];
          }
        }
        assert ps[..|ps|] == ps;
        assert order[..i + 1][..i] == order[..i];
      }
      assert order[..|order|] == order;
      suggestions := SortDesc(suggestions, Confidence);
      r := Take(suggestions, MaxSuggestions);
    }

    /** Replaces the context every command receives. */
    method UpdateContext(ctx: SystemContext)
      requires Valid()
      modifies this
      ensures Valid()
      ensures context == ctx
      ensures commands == old(commands) && patterns == old(patterns) && history == old(history)
      ensures config == old(config) && metrics == old(metrics)
    {
      context := ctx;
    }
  }

  // ---------------------------------------------------------------------
  // The engine's own tests, stated over their test command
  // ---------------------------------------------------------------------

  /** The patterns of the command the tests register under the name `test_command`, category System. */
  const TestPatterns: seq<PatternType> := [Exact("test command"), ContainsText("test")]

  /** "test command" selects the test command directly, with confidence 1. */
  lemma ParsesTestCommand()
    ensures ParseOf(PatternsFor("test_command", TestPatterns), map["test_command" := System], DefaultConfig(), "test command")
      == Ok(ParsedCommand("test_command", "test command", 1.0, System, Matched(Exact("test command"))))
  {
    var ps := PatternsFor("test_command", TestPatterns);
    ToLowerIdentity("test command");
    assert ps[0] == CommandPattern(Exact("test command"), "test_command", DefaultPriority, true);
    ParseFirstHit(ps, map["test_command" := System], DefaultConfig(), "test command", 0);
  }

  /** The misspelt "tst comand" still reaches the test command, by fuzzy matching, with confidence above 0.8. */
  lemma FuzzyParsesMisspelling(ps: seq<CommandPattern>, cats: map<string, CommandCategory>, input: string)
    requires ps == PatternsFor("test_command", TestPatterns) && cats == map["test_command" := System]
    requires input == "tst comand"
    ensures var r := ParseOf(ps, cats, DefaultConfig(), input);
      r.Ok? && r.value.command_name == "test_command" && r.value.confidence > 0.8
  {
    ToLowerIdentity(input);
    assert Normalized(DefaultConfig(), input) == input;
    var p0 := ps[0].pattern.text;
    assert ps[0] == CommandPattern(Exact(p0), "test_command", DefaultPriority, true) && p0 == "test command";
    assert ps[1] == CommandPattern(ContainsText("test"), "test_command", DefaultPriority, true);
    assert !Contains(input, "test") by {
      forall j | 0 <= j <= |input| - 4 ensures !OccursAt(input, "test", j) {
        if j == 0 || j == 2 {
          Mismatch(input, "test", j, 1);
        } else {
          Mismatch(input, "test", j, 0);
        }
      }
    }
    assert !DirectHit(ps[0], cats, input);
    assert !DirectHit(ps[1], cats, input);
    assert p0 == input[..1] + ['e'] + input[1..7] + ['m'] + input[7..];
    assert input == input[..1] + input[1..7] + input[7..];
    TwoDeletions(input[..1], 'e', input[1..7], 'm', input[7..]);
    SimilarityAtLeast(p0, input, 2);
    assert Similarity(p0, input) > 0.8;
    assert Qualifies(ps[0], input, 0.8);
    ParseFuzzy(ps, cats, DefaultConfig(), input);
  }

  /** "tes" is a prefix of both test patterns, so the first suggestion is the test command. */
  lemma SuggestsTestCommand()
    ensures var r := SuggestionsOf([Registered("test_command", System, TestPatterns)], DefaultConfig(), "tes");
      |r| > 0 && r[0].command_name == "test_command"
  {
    var es := [Registered("test_command", System, TestPatterns)];
    var e := es[0];
    ToLowerIdentity("tes");
    assert StartsWith("test command", "tes");
    assert SuggestionScore(Exact("test command"), "tes") == Some(0.9);
    assert TestPatterns[..1] == [Exact("test command")];
    assert es[..0] == [];
    var one := TestPatterns[..1];
    assert one[..0] == [];
    assert one[|one| - 1] == Exact("test command");
    assert SuggestionsFrom(e, one[..0], "tes") == [];
    var first := SuggestionsFrom(e, one, "tes");
    assert first == [CommandSuggestion("test_command", System, Exact("test command"), 0.9)];
    assert TestPatterns[..|TestPatterns| - 1] == TestPatterns[..1];
    assert |Candidates(es, "tes")| >= 1;
    var r := SuggestionsOf(es, DefaultConfig(), "tes");
    SuggestionsShape(es, DefaultConfig(), "tes");
    CandidatesSound(es, "tes");
    assert r[0] in Candidates(es, "tes");
  }

  /** The registered commands in the order `order` names them. */
  function EntriesOf(cmds: map<string, C.Command>, order: seq<string>): seq<Registered>
    requires forall n :: n in order ==> n in cmds
  {
    if |order| == 0 then []
    else EntriesOf(cmds, order[..|order| - 1]) + [EntryOf(cmds[order[|order| - 1]])]
  }

  /** `get_commands_by_category`, as a set: its order is the hash map's. */
  function CommandsInCategory(cmds: map<string, C.Command>, category: CommandCategory): (r: set<string>)
    requires forall n :: n in cmds ==> C.Name(cmds[n]) == n
    ensures forall n :: n in r <==> n in cmds && C.Category(cmds[n]) == category
  {
    set n | n in cmds && C.Category(cmds[n]) == category :: C.Name(cmds[n])
  }
}
