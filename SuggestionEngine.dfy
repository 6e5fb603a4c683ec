/**
 * The intelligent suggestion engine of `suggestion_engine.rs`: suggestions
 * drawn from the mode, from usage frequency, from inferred goals and from
 * time-of-day preferences, ranked by descending confidence and thinned out
 * by a diversity filter that admits at most two suggestions per category.
 *
 * Every suggestion is built with the category System, so the diversity
 * filter lets at most two of them through (`GenerateShape`).
 */
module SuggestionEngine {
  import opened Common
  import opened VoiceTypes
  import CM = ContextManager

  datatype SuggestionReason =
    | ContextualRelevance | FrequencyBased | GoalAlignment | InputCompletion | TimeBased
    | SimilarityBased | ProactivePrediction | ErrorPrevention | Optimization

  /** `EnhancedCommandSuggestion` without its description and example texts. */
  datatype EnhancedSuggestion = EnhancedSuggestion(
    command_name: string,
    category: CommandCategory,
    confidence: real,
    reason: SuggestionReason,
    estimated_benefit: real,
    learning_factor: real,
    personalization_score: real)

  /** `CommandSuggestion` as `get_category_suggestions` builds it. */
  datatype CategorySuggestion = CategorySuggestion(
    command_name: string,
    category: CommandCategory,
    pattern: string,
    confidence: real)

  datatype InferredGoal = InferredGoal(goal_name: string, confidence: real, progress: real, next_likely_commands: seq<string>)

  datatype SuggestionFeedback = SuggestionFeedback(
    suggestion_id: string,
    suggested_command: string,
    was_accepted: bool,
    was_helpful: bool,
    user_rating: Option<real>,
    timestamp: nat)

  datatype SuggestionEngineConfig = SuggestionEngineConfig(
    max_suggestions: nat,
    min_confidence: real,
    enable_learning: bool,
    enable_context_prediction: bool,
    enable_goal_inference: bool,
    suggestion_diversity: real,
    real_time_adaptation: bool)

  function DefaultConfig(): SuggestionEngineConfig
  {
    SuggestionEngineConfig(5, 0.3, true, true, true, 0.7, true)
  }

  /** `UsagePattern`, as far as `record_command_usage` maintains it. */
  datatype UsagePattern = UsagePattern(command_name: string, total_uses: nat, recent_uses: seq<nat>, success_rate: real)

  function NewPattern(command: string): UsagePattern
  {
    UsagePattern(command, 0, [], 1.0)
  }

  // ---------------------------------------------------------------------
  // Usage statistics
  // ---------------------------------------------------------------------

  /** The running success rate after one more use, `prior` uses having come before. */
  function UpdatedRate(rate: real, prior: nat, success: bool): real
  {
    (rate * prior as real + (if success then 1.0 else 0.0)) / (prior as real + 1.0)
  }

  /** One more use of the command at time `now`. */
  function Recorded(p: UsagePattern, success: bool, now: nat): (r: UsagePattern)
    ensures r.command_name == p.command_name
    ensures r.total_uses == p.total_uses + 1
    ensures r.recent_uses == p.recent_uses + [now]
  {
    p.(total_uses := p.total_uses + 1,
       recent_uses := p.recent_uses + [now],
       success_rate := UpdatedRate(p.success_rate, p.total_uses, success))
  }

  lemma RateStepBounded(rate: real, m: real, b: real)
    requires 0.0 <= rate <= 1.0 && m >= 0.0 && 0.0 <= b <= 1.0
    ensures 0.0 <= (rate * m + b) / (m + 1.0) <= 1.0
  {
    var a := rate * m + b;
    assert 0.0 <= rate * m <= m by {
      assert m - rate * m == (1.0 - rate) * m;
    }
    assert a / (m + 1.0) * (m + 1.0) == a;
  }

  lemma RateStepMean(s: real, m: real, b: real)
    requires m > 0.0
    ensures (s / m * m + b) / (m + 1.0) == (s + b) / (m + 1.0)
  {
    assert s / m * m == s;
  }

  /** A success rate stays a rate. */
  lemma RecordedRateBounded(p: UsagePattern, success: bool, now: nat)
    requires 0.0 <= p.success_rate <= 1.0
    ensures 0.0 <= Recorded(p, success, now).success_rate <= 1.0
  {
    var m := p.total_uses as real;
    var b := if success then 1.0 else 0.0;
    RateStepBounded(p.success_rate, m, b);
    var r := Recorded(p, success, now).success_rate;
    assert r == (p.success_rate * m + b) / (m + 1.0);
    assert r <= 1.0;
  }

  function Successes(uses: seq<(bool, nat)>): nat
  {
    if |uses| == 0 then 0 else Successes(uses[..|uses| - 1]) + (if uses[|uses| - 1].0 then 1 else 0)
  }

  function Times(uses: seq<(bool, nat)>): seq<nat>
  {
    if |uses| == 0 then [] else Times(uses[..|uses| - 1]) + [uses[|uses| - 1].1]
  }

  /** The pattern of a command recorded once for each `(success, time)` in `uses`. */
  function Replay(command: string, uses: seq<(bool, nat)>): UsagePattern
  {
    if |uses| == 0 then NewPattern(command)
    else Recorded(Replay(command, uses[..|uses| - 1]), uses[|uses| - 1].0, uses[|uses| - 1].1)
  }

  /**
   * The statistics mean what their names say: the number of uses, their
   * times in order, and the fraction of them that succeeded.
   */
  lemma {:induction false} ReplayStatistics(command: string, uses: seq<(bool, nat)>)
    ensures var p := Replay(command, uses);
      && p.command_name == command
      && p.total_uses == |uses|
      && p.recent_uses == Times(uses)
      && (|uses| > 0 ==> p.success_rate == Successes(uses) as real / |uses| as real)
  {
    if |uses| > 0 {
      var init := uses[..|uses| - 1];
      ReplayStatistics(command, init);
      var last := uses[|uses| - 1];
      var p0 := Replay(command, init);
      var b := if last.0 then 1.0 else 0.0;
      assert Replay(command, uses) == Recorded(p0, last.0, last.1);
      assert Successes(uses) == Successes(init) + (if last.0 then 1 else 0);
      MeanStep(p0.success_rate, |init|, Successes(init), last.0);
    }
  }

  /** One more use moves the rate `s0 / n` of `n` earlier uses to the rate of `n + 1` uses. */
  lemma MeanStep(rate: real, n: nat, s0: nat, success: bool)
    requires n > 0 ==> rate == s0 as real / n as real
    requires n == 0 ==> rate == 1.0 && s0 == 0
    ensures UpdatedRate(rate, n, success) == (s0 + (if success then 1 else 0)) as real / (n + 1) as real
  {
    var b := if success then 1.0 else 0.0;
    var m := n as real;
    if n > 0 {
      RateStepMean(s0 as real, m, b);
    }
  }

  /** Consistency of the recorded patterns. */
  ghost predicate PatternsValid(usage: map<string, UsagePattern>)
  {
    forall k :: k in usage ==>
      usage[k].command_name == k
      && |usage[k].recent_uses| == usage[k].total_uses
      && 0.0 <= usage[k].success_rate <= 1.0
  }

  function UsesOf(usage: map<string, UsagePattern>): (r: map<string, nat>)
    ensures r.Keys == usage.Keys
    ensures forall k :: k in r ==> r[k] == usage[k].total_uses
  {
    map k | k in usage :: usage[k].total_uses
  }

  /** `UserBehaviorAnalyzer`: what it learns from executed commands. */
  class UserBehaviorAnalyzer {
    var usage_patterns: map<string, UsagePattern>
    /** Hour of the day to preferred commands. */
    var time_preferences: map<nat, seq<string>>

    ghost predicate Valid()
      reads this
    {
      PatternsValid(usage_patterns)
    }

    constructor ()
      ensures Valid()
      ensures usage_patterns == map[] && time_preferences == map[]
    {
      usage_patterns := map[];
      time_preferences := map[];
    }

    /** The pattern a command has, or would start with. */
    function PatternOf(command: string): UsagePattern
      reads this
    {
      if command in usage_patterns then usage_patterns[command] else NewPattern(command)
    }

    /** `record_command_usage`: one more use of `command` at time `now`. */
    method RecordCommandUsage(command: string, success: bool, now: nat)
      requires Valid()
      modifies this
      ensures Valid()
      ensures usage_patterns == old(usage_patterns)[command := Recorded(old(PatternOf(command)), success, now)]
      ensures time_preferences == old(time_preferences)
    {
      var pattern := PatternOf(command);
      RecordedRateBounded(pattern, success, now);
      usage_patterns := usage_patterns[command := Recorded(pattern, success, now)];
    }

    /**
     * `get_frequent_commands(limit)`: at most `limit` commands by descending
     * use; `order` is the hash map's iteration order, which decides ties.
     */
    function FrequentCommands(order: seq<string>, limit: nat): (r: seq<(string, nat)>)
      reads this
      requires IsOrderOf(order, usage_patterns.Keys)
      ensures |r| <= limit && |r| <= |usage_patterns|
      ensures SortedDesc(r, CM.PairKey)
      ensures forall i :: 0 <= i < |r| ==> r[i].0 in usage_patterns && r[i].1 == usage_patterns[r[i].0].total_uses
    {
      CM.FrequentCommandsShape(UsesOf(usage_patterns), order, limit);
      CM.FrequentCommands(UsesOf(usage_patterns), order, limit)
    }
  }

  // ---------------------------------------------------------------------
  // Suggestion sources
  // ---------------------------------------------------------------------

  /**
   * `create_enhanced_suggestion`: the category is always System, and the
   * benefit, learning factor and personalisation score are all 0.5.
   */
  function Enhanced(command: string, confidence: real, reason: SuggestionReason): EnhancedSuggestion
  {
    EnhancedSuggestion(command, System, confidence, reason, 0.5, 0.5, 0.5)
  }

  /** `get_context_based_suggestions`: one suggestion for three of the six modes. */
  function ContextSuggestions(mode: SystemMode): (r: seq<EnhancedSuggestion>)
    ensures |r| <= 1
    ensures |r| == 1 <==> mode in {Normal, Narration, Configuration}
    ensures forall i :: 0 <= i < |r| ==> r[i].reason == ContextualRelevance && r[i].confidence >= 0.7
  {
    match mode
    case Normal => [Enhanced("enable_narration", 0.7, ContextualRelevance)]
    case Narration => [Enhanced("disable_narration", 0.9, ContextualRelevance)]
    case Configuration => [Enhanced("save_settings", 0.8, ContextualRelevance)]
    case _ => []
  }

  function FrequencyConfidence(uses: nat): (r: real)
    ensures 0.0 <= r <= 0.8
    ensures uses <= 80 ==> r == uses as real / 100.0
  {
    MinReal(uses as real / 100.0, 0.8)
  }

  /** The suggestions made for the frequent commands, in their order. */
  function FrequencySuggestions(frequent: seq<(string, nat)>): (r: seq<EnhancedSuggestion>)
    ensures |r| == |frequent|
    ensures forall i :: 0 <= i < |r| ==> r[i] == Enhanced(frequent[i].0, FrequencyConfidence(frequent[i].1), FrequencyBased)
  {
    if |frequent| == 0 then []
    else
      var p := frequent[|frequent| - 1];
      FrequencySuggestions(frequent[..|frequent| - 1]) + [Enhanced(p.0, FrequencyConfidence(p.1), FrequencyBased)]
  }

  /** The suggestions of one goal's next likely commands. */
  function GoalCommands(goal: InferredGoal, commands: seq<string>): (r: seq<EnhancedSuggestion>)
    ensures |r| == |commands|
    ensures forall i :: 0 <= i < |r| ==> r[i] == Enhanced(commands[i], goal.confidence * 0.8, GoalAlignment)
  {
    if |commands| == 0 then []
    else GoalCommands(goal, commands[..|commands| - 1]) + [Enhanced(commands[|commands| - 1], goal.confidence * 0.8, GoalAlignment)]
  }

  function GoalSuggestions(goals: seq<InferredGoal>): seq<EnhancedSuggestion>
  {
    if |goals| == 0 then []
    else GoalSuggestions(goals[..|goals| - 1]) + GoalCommands(goals[|goals| - 1], goals[|goals| - 1].next_likely_commands)
  }

  function TimeCommands(commands: seq<string>): (r: seq<EnhancedSuggestion>)
    ensures |r| == |commands|
    ensures forall i :: 0 <= i < |r| ==> r[i] == Enhanced(commands[i], 0.6, TimeBased)
  {
    if |commands| == 0 then []
    else TimeCommands(commands[..|commands| - 1]) + [Enhanced(commands[|commands| - 1], 0.6, TimeBased)]
  }

  /** `get_time_based_suggestions`: the first two commands preferred at `hour`, at 0.6. */
  function TimeSuggestions(prefs: map<nat, seq<string>>, hour: nat): (r: seq<EnhancedSuggestion>)
    ensures |r| <= 2
    ensures hour !in prefs ==> r == []
    ensures hour in prefs ==> |r| <= |prefs[hour]| && forall i :: 0 <= i < |r| ==> r[i] == Enhanced(prefs[hour][i], 0.6, TimeBased)
  {
    if hour in prefs then TimeCommands(Take(prefs[hour], 2)) else []
  }

  /** The suggestions before ranking, in the order the sources are consulted. */
  function Candidates(usage: map<string, UsagePattern>, prefs: map<nat, seq<string>>, goals: seq<InferredGoal>,
                      mode: SystemMode, order: seq<string>, hour: nat): seq<EnhancedSuggestion>
    requires IsOrderOf(order, usage.Keys)
  {
    ContextSuggestions(mode)
    + FrequencySuggestions(CM.FrequentCommands(UsesOf(usage), order, 3))
    + GoalSuggestions(goals)
    + TimeSuggestions(prefs, hour)
  }

  // ---------------------------------------------------------------------
  // Ranking and diversity
  // ---------------------------------------------------------------------

  function Confidence(s: EnhancedSuggestion): real { s.confidence }

  /** `rank_suggestions`: a stable sort by descending confidence. */
  function Rank(s: seq<EnhancedSuggestion>): (r: seq<EnhancedSuggestion>)
    ensures multiset(r) == multiset(s)
    ensures SortedDesc(r, Confidence)
  {
    SortDescSorted(s, Confidence);
    SortDesc(s, Confidence)
  }

  function CategoryCount(s: seq<EnhancedSuggestion>, c: CommandCategory): (r: nat)
    ensures r <= |s|
  {
    if |s| == 0 then 0 else CategoryCount(s[..|s| - 1], c) + (if s[|s| - 1].category == c then 1 else 0)
  }

  /** The filter without its early stop: each suggestion whose category has had fewer than two admitted. */
  function Diverse(s: seq<EnhancedSuggestion>): (r: seq<EnhancedSuggestion>)
    ensures |r| <= |s|
  {
    if |s| == 0 then []
    else
      var kept := Diverse(s[..|s| - 1]);
      if CategoryCount(kept, s[|s| - 1].category) < 2 then kept + [s[|s| - 1]] else kept
  }

  /** The filter stops once it holds `max` (the first suggestion is admitted before the first check). */
  function Cap(max: nat): nat { if max == 0 then 1 else max }

  /** `apply_diversity_filter`, specified. */
  function DiversityOf(s: seq<EnhancedSuggestion>, max: nat): seq<EnhancedSuggestion>
  {
    Take(Diverse(s), Cap(max))
  }

  lemma CountAppend(p: seq<EnhancedSuggestion>, x: EnhancedSuggestion, c: CommandCategory)
    ensures CategoryCount(p + [x], c) == CategoryCount(p, c) + (if x.category == c then 1 else 0)
  {
    assert (p + [x])[..|p|] == p;
  }

  /** Exactly the first two suggestions of each category are admitted. */
  lemma {:induction false} DiverseCounts(s: seq<EnhancedSuggestion>, c: CommandCategory)
    ensures CategoryCount(Diverse(s), c) == if CategoryCount(s, c) < 2 then CategoryCount(s, c) else 2
  {
    if |s| > 0 {
      var init := s[..|s| - 1];
      var x := s[|s| - 1];
      var kept := Diverse(init);
      DiverseCounts(init, c);
      DiverseCounts(init, x.category);
      if CategoryCount(kept, x.category) < 2 {
        CountAppend(kept, x, c);
      }
    }
  }

  /** The admitted suggestions keep their order in the input. */
  lemma {:induction false} DiverseSubseq(s: seq<EnhancedSuggestion>)
    ensures Subseq(Diverse(s), s)
  {
    if |s| > 0 {
      var init := s[..|s| - 1];
      var kept := Diverse(init);
      DiverseSubseq(init);
      if CategoryCount(kept, s[|s| - 1].category) < 2 {
        var r := kept + [s[|s| - 1]];
        assert r[..|r| - 1] == kept;
      }
    }
  }

  /** What the filter admits from a prefix of the input begins what it admits from all of it. */
  lemma {:induction false} DiversePrefix(s: seq<EnhancedSuggestion>, i: nat)
    requires i <= |s|
    ensures |Diverse(s[..i])| <= |Diverse(s)|
    ensures Diverse(s)[..|Diverse(s[..i])|] == Diverse(s[..i])
  {
    if i < |s| {
      var init := s[..|s| - 1];
      assert init[..i] == s[..i];
      DiversePrefix(init, i);
    } else {
      assert s[..i] == s;
    }
  }

  /**
   * The diversity filter admits at most two suggestions per category, and
   * exactly the first two while it is not full; it keeps their order, and
   * stops at `max` suggestions (one when `max` is 0).
   */
  lemma DiversityShape(s: seq<EnhancedSuggestion>, max: nat)
    ensures var r := DiversityOf(s, max);
      && |r| <= Cap(max)
      && Subseq(r, s)
      && (forall c :: CategoryCount(r, c) <= 2)
      && (|Diverse(s)| <= Cap(max) ==>
            forall c :: CategoryCount(r, c) == if CategoryCount(s, c) < 2 then CategoryCount(s, c) else 2)
  {
    var d := Diverse(s);
    var r := DiversityOf(s, max);
    DiverseSubseq(s);
    SubseqPrefix(d, s, |r|);
    forall c ensures CategoryCount(r, c) <= 2 {
      DiverseCounts(s, c);
      CountPrefix(d, |r|, c);
    }
    if |d| <= Cap(max) {
      forall c ensures CategoryCount(r, c) == if CategoryCount(s, c) < 2 then CategoryCount(s, c) else 2 {
        DiverseCounts(s, c);
      }
    }
  }

  lemma {:induction false} CountPrefix(s: seq<EnhancedSuggestion>, k: nat, c: CommandCategory)
    requires k <= |s|
    ensures CategoryCount(s[..k], c) <= CategoryCount(s, c)
  {
    if k < |s| {
      assert s[..|s| - 1][..k] == s[..k];
      CountPrefix(s[..|s| - 1], k, c);
    } else {
      assert s[..k] == s;
    }
  }

  /** In a sequence of one category, the count of that category is the length. */
  lemma {:induction false} OneCategoryCount(s: seq<EnhancedSuggestion>, c: CommandCategory)
    requires forall i :: 0 <= i < |s| ==> s[i].category == c
    ensures CategoryCount(s, c) == |s|
  {
    if |s| > 0 {
      OneCategoryCount(s[..|s| - 1], c);
    }
  }

  /** `seen` holds the count of each category admitted so far. */
  ghost predicate CountsSeen(filtered: seq<EnhancedSuggestion>, seen: map<CommandCategory, nat>)
  {
    forall c :: CategoryCount(filtered, c) == if c in seen then seen[c] else 0
  }

  lemma SeenStep(filtered: seq<EnhancedSuggestion>, seen: map<CommandCategory, nat>, x: EnhancedSuggestion)
    requires CountsSeen(filtered, seen)
    ensures CountsSeen(filtered + [x], seen[x.category := (if x.category in seen then seen[x.category] else 0) + 1])
  {
    forall c ensures CategoryCount(filtered + [x], c)
      == (if c in seen[x.category := (if x.category in seen then seen[x.category] else 0) + 1]
          then seen[x.category := (if x.category in seen then seen[x.category] else 0) + 1][c] else 0)
    {
      CountAppend(filtered, x, c);
    }
  }

  /** One step of the filter: `suggestion` is admitted when its category has fewer than two. */
  method Admit(filtered: seq<EnhancedSuggestion>, seen: map<CommandCategory, nat>, suggestion: EnhancedSuggestion)
    returns (filtered': seq<EnhancedSuggestion>, seen': map<CommandCategory, nat>)
    requires CountsSeen(filtered, seen)
    ensures CountsSeen(filtered', seen')
    ensures filtered' == if CategoryCount(filtered, suggestion.category) < 2 then filtered + [suggestion] else filtered
  {
    var category := suggestion.category;
    var count := if category in seen then seen[category] else 0;
    filtered', seen' := filtered, seen;
    if count < 2 {
      SeenStep(filtered, seen, suggestion);
      filtered' := filtered + [suggestion];
      seen' := seen[category := count + 1];
    }
  }

  /** One more suggestion looked at. */
  lemma DiverseStep(s: seq<EnhancedSuggestion>, i: nat)
    requires i < |s|
    ensures Diverse(s[..i + 1]) ==
      if CategoryCount(Diverse(s[..i]), s[i].category) < 2 then Diverse(s[..i]) + [s[i]] else Diverse(s[..i])
  {
    assert s[..i + 1][..i] == s[..i];
  }

  /** Stopping when `Cap(max)` suggestions are held gives the specified result. */
  lemma DiversityCut(s: seq<EnhancedSuggestion>, i: nat, max: nat)
    requires i <= |s| && |Diverse(s[..i])| >= max
    requires i > 0 && (i == 1 || |Diverse(s[..i - 1])| < max)
    ensures Diverse(s[..i]) == DiversityOf(s, max)
  {
    DiverseStep(s, i - 1);
    if i == 1 {
      assert s[..0] == [];
    }
    assert |Diverse(s[..i])| == Cap(max);
    DiversePrefix(s, i);
  }

  /** Looking at every suggestion without filling up gives the specified result. */
  lemma DiversityWhole(s: seq<EnhancedSuggestion>, max: nat)
    requires |Diverse(s[..|s|])| < Cap(max)
    ensures Diverse(s[..|s|]) == DiversityOf(s, max)
  {
    assert s[..|s|] == s;
  }

  /** `generate_suggestions`, specified. */
  function GenerateOf(usage: map<string, UsagePattern>, prefs: map<nat, seq<string>>, goals: seq<InferredGoal>,
                      config: SuggestionEngineConfig, mode: SystemMode, order: seq<string>, hour: nat): seq<EnhancedSuggestion>
    requires IsOrderOf(order, usage.Keys)
  {
    DiversityOf(Rank(Candidates(usage, prefs, goals, mode, order, hour)), config.max_suggestions)
  }

  lemma {:induction false} GoalSuggestionsSystem(goals: seq<InferredGoal>)
    ensures AllSystem(GoalSuggestions(goals))
  {
    if |goals| > 0 {
      GoalSuggestionsSystem(goals[..|goals| - 1]);
    }
  }

  lemma CandidatesSystem(usage: map<string, UsagePattern>, prefs: map<nat, seq<string>>, goals: seq<InferredGoal>,
                         mode: SystemMode, order: seq<string>, hour: nat)
    requires IsOrderOf(order, usage.Keys)
    ensures var cs := Candidates(usage, prefs, goals, mode, order, hour);
      forall i :: 0 <= i < |cs| ==> cs[i].category == System
  {
    var a := ContextSuggestions(mode);
    var b := FrequencySuggestions(CM.FrequentCommands(UsesOf(usage), order, 3));
    var c := GoalSuggestions(goals);
    var d := TimeSuggestions(prefs, hour);
    GoalSuggestionsSystem(goals);
    ContextSystem(mode);
    FrequencySystem(CM.FrequentCommands(UsesOf(usage), order, 3));
    TimeSystem(prefs, hour);
    AllSystemConcat(a, b);
    AllSystemConcat(a + b, c);
    AllSystemConcat(a + b + c, d);
  }

  lemma ContextSystem(mode: SystemMode)
    ensures AllSystem(ContextSuggestions(mode))
  {
  }

  lemma FrequencySystem(frequent: seq<(string, nat)>)
    ensures AllSystem(FrequencySuggestions(frequent))
  {
  }

  lemma TimeSystem(prefs: map<nat, seq<string>>, hour: nat)
    ensures AllSystem(TimeSuggestions(prefs, hour))
  {
  }

  predicate AllSystem(s: seq<EnhancedSuggestion>)
  {
    forall i :: 0 <= i < |s| ==> s[i].category == System
  }

  lemma AllSystemConcat(a: seq<EnhancedSuggestion>, b: seq<EnhancedSuggestion>)
    requires AllSystem(a) && AllSystem(b)
    ensures AllSystem(a + b)
  {
    forall i | 0 <= i < |a + b| ensures (a + b)[i].category == System {
      if i >= |a| { assert (a + b)[i] == b[i - |a|]; }
    }
  }

  /** Filtering a ranked sequence of System suggestions keeps at most two, still ranked. */
  lemma FilteredSystemShape(ranked: seq<EnhancedSuggestion>, max: nat)
    requires forall i :: 0 <= i < |ranked| ==> ranked[i].category == System
    requires SortedDesc(ranked, Confidence)
    ensures var r := DiversityOf(ranked, max);
      && |r| <= 2
      && |r| <= Cap(max)
      && SortedDesc(r, Confidence)
      && Subseq(r, ranked)
      && (forall x :: x in r ==> x in ranked)
      && (|ranked| > 0 ==> |r| > 0)
  {
    var r := DiversityOf(ranked, max);
    DiversityShape(ranked, max);
    SubseqMembers(r, ranked);
    forall i | 0 <= i < |r| ensures r[i].category == System {
      assert r[i] in r;
    }
    OneCategoryCount(r, System);
    SubseqSortedDesc(r, ranked, Confidence);
    if |ranked| > 0 {
      assert Diverse(ranked[..1]) == [ranked[0]] by {
        assert ranked[..1][..0] == [];
      }
      DiversePrefix(ranked, 1);
    }
  }

  /**
   * Since every suggestion is in category System, at most two survive,
   * ranked by descending confidence, each drawn from the candidates in
   * ranked order; some survives whenever there is a candidate.
   */
  lemma GenerateShape(usage: map<string, UsagePattern>, prefs: map<nat, seq<string>>, goals: seq<InferredGoal>,
                      config: SuggestionEngineConfig, mode: SystemMode, order: seq<string>, hour: nat)
    requires IsOrderOf(order, usage.Keys)
    ensures var cs := Candidates(usage, prefs, goals, mode, order, hour);
      var r := GenerateOf(usage, prefs, goals, config, mode, order, hour);
      && |r| <= 2
      && |r| <= Cap(config.max_suggestions)
      && SortedDesc(r, Confidence)
      && Subseq(r, Rank(cs))
      && (forall x :: x in r ==> x in cs)
      && (|cs| > 0 ==> |r| > 0)
  {
    var cs := Candidates(usage, prefs, goals, mode, order, hour);
    var ranked := Rank(cs);
    CandidatesSystem(usage, prefs, goals, mode, order, hour);
    forall i | 0 <= i < |ranked| ensures ranked[i].category == System {
      assert ranked[i] in multiset(cs);
    }
    FilteredSystemShape(ranked, config.max_suggestions);
    forall x | x in DiversityOf(ranked, config.max_suggestions) ensures x in cs {
      assert x in multiset(ranked);
    }
  }

  // ---------------------------------------------------------------------
  // Prefix similarity and category suggestions
  // ---------------------------------------------------------------------

  /**
   * `calculate_prefix_similarity`: the share of `command` that `partial`
   * covers when it is a prefix, 0 otherwise (lengths in bytes, one per
   * character here). With both empty the program divides 0 by 0, giving
   * NaN, which is `None` here.
   */
  function PrefixSimilarity(partial: string, command: string): (r: Option<real>)
    ensures r.None? <==> partial == [] && command == []
  {
    if StartsWith(command, partial) then
      if |command| == 0 then None else Some(|partial| as real / |command| as real)
    else Some(0.0)
  }

  /** The similarity lies in [0, 1]; it is 1 only for the whole command, positive only for a non-empty prefix. */
  lemma PrefixSimilarityBounds(partial: string, command: string)
    requires PrefixSimilarity(partial, command).Some?
    ensures var v := PrefixSimilarity(partial, command).value;
      && 0.0 <= v <= 1.0
      && (v == 1.0 <==> partial == command)
      && (v > 0.0 <==> |partial| > 0 && StartsWith(command, partial))
      && (StartsWith(command, partial) && |partial| < |command| ==> v < 1.0)
  {
    if StartsWith(command, partial) {
      assert |command| > 0;
      FractionFacts(|partial|, |command|);
      assert partial == command <==> |partial| == |command| by {
        if |partial| == |command| { assert command[..|partial|] == command; }
      }
    }
  }

  /** A fraction of naturals with the numerator at most the denominator. */
  lemma FractionFacts(p: nat, c: nat)
    requires 0 < c && p <= c
    ensures 0.0 <= p as real / c as real <= 1.0
    ensures p as real / c as real == 1.0 <==> p == c
    ensures p as real / c as real > 0.0 <==> p > 0
  {
    var v := p as real / c as real;
    RatioBounds(p, c);
    assert v * c as real == p as real;
    assert 0.0 / c as real == 0.0;
    QuotientSign(p as real, c as real);
  }

  lemma QuotientSign(a: real, b: real)
    requires 0.0 <= a && 0.0 < b
    ensures a / b > 0.0 <==> a > 0.0
  {
  }

  /** "enab" covers four of the ten characters of "enable_vad". */
  lemma EnabSimilarity(partial: string, command: string)
    requires partial == "enab" && command == "enable_vad"
    ensures PrefixSimilarity(partial, command) == Some(0.4)
  {
    assert command[..4] == partial;
  }

  /** `calculate_command_relevance`: a constant. */
  const Relevance: real := 0.5

  /** `get_relevant_commands_for_category`: nothing is looked up yet. */
  function RelevantCommands(category: CommandCategory): seq<string>
  {
    []
  }

  function CategoryConfidence(s: CategorySuggestion): real { s.confidence }

  /** One suggestion per relevant command, at the constant relevance. */
  function CategoryEntries(commands: seq<string>, category: CommandCategory): (r: seq<CategorySuggestion>)
    ensures |r| == |commands|
    ensures forall i :: 0 <= i < |r| ==> r[i] == CategorySuggestion(commands[i], category, "category_suggestion", Relevance)
  {
    if |commands| == 0 then []
    else CategoryEntries(commands[..|commands| - 1], category)
         + [CategorySuggestion(commands[|commands| - 1], category, "category_suggestion", Relevance)]
  }

  /** Sorting entries of equal relevance keeps their order; the result is cut at `max`. */
  lemma CategoryEntriesRanked(commands: seq<string>, category: CommandCategory, max: nat)
    ensures var r := Take(SortDesc(CategoryEntries(commands, category), CategoryConfidence), max);
      && r == Take(CategoryEntries(commands, category), max)
      && |r| <= max
      && SortedDesc(r, CategoryConfidence)
  {
    var es := CategoryEntries(commands, category);
    SortDescSameKeys(es, CategoryConfidence, Relevance);
  }

  /** The loop of `get_category_suggestions` over the relevant commands. */
  method CategoryEntriesFor(commands: seq<string>, category: CommandCategory) returns (suggestions: seq<CategorySuggestion>)
    ensures suggestions == CategoryEntries(commands, category)
  {
    suggestions := [];
    for i := 0 to |commands|
      invariant suggestions == CategoryEntries(commands[..i], category)
    {
      assert commands[..i + 1][..i] == commands[..i];
      suggestions := suggestions + [CategorySuggestion(commands[i], category, "category_suggestion", Relevance)];
    }
    assert commands[..|commands|] == commands;
  }

  // ---------------------------------------------------------------------
  // The engine
  // ---------------------------------------------------------------------

  /** `CommandSuggestionEngine`. */
  class CommandSuggestionEngine {
    const analyzer: UserBehaviorAnalyzer
    /** The goals the (inactive) goal inference holds. */
    var current_goals: seq<InferredGoal>
    var suggestion_feedback: map<string, SuggestionFeedback>
    var config: SuggestionEngineConfig

    ghost predicate Valid()
      reads this, analyzer
    {
      analyzer.Valid()
    }

    /** `CommandSuggestionEngine::new`. */
    constructor ()
      ensures Valid() && fresh(analyzer)
      ensures analyzer.usage_patterns == map[] && analyzer.time_preferences == map[]
      ensures current_goals == [] && suggestion_feedback == map[] && config == DefaultConfig()
    {
      analyzer := new UserBehaviorAnalyzer();
      current_goals := [];
      suggestion_feedback := map[];
      config := DefaultConfig();
    }

    /** `get_behavior_based_suggestions`: the three most used commands. */
    method BehaviorSuggestions(order: seq<string>) returns (r: seq<EnhancedSuggestion>)
      requires IsOrderOf(order, analyzer.usage_patterns.Keys)
      ensures r == FrequencySuggestions(analyzer.FrequentCommands(order, 3))
      ensures |r| <= 3
    {
      var frequent := analyzer.FrequentCommands(order, 3);
      r := [];
      for i := 0 to |frequent|
        invariant r == FrequencySuggestions(frequent[..i])
      {
        assert frequent[..i + 1][..i] == frequent[..i];
        r := r + [Enhanced(frequent[i].0, FrequencyConfidence(frequent[i].1), FrequencyBased)];
      }
      assert frequent[..|frequent|] == frequent;
    }

    /** `get_goal_oriented_suggestions`: every next likely command of every goal. */
    method GoalOrientedSuggestions() returns (r: seq<EnhancedSuggestion>)
      ensures r == GoalSuggestions(current_goals)
    {
      r := [];
      for i := 0 to |current_goals|
        invariant r == GoalSuggestions(current_goals[..i])
      {
        var goal := current_goals[i];
        ghost var before := r;
        for j := 0 to |goal.next_likely_commands|
          invariant r == before + GoalCommands(goal, goal.next_likely_commands[..j])
        {
          assert goal.next_likely_commands[..j + 1][..j] == goal.next_likely_commands[..j];
          r := r + [Enhanced(goal.next_likely_commands[j], goal.confidence * 0.8, GoalAlignment)];
        }
        assert goal.next_likely_commands[..|goal.next_likely_commands|] == goal.next_likely_commands;
        assert current_goals[..i + 1][..i] == current_goals[..i];
      }
      assert current_goals[..|current_goals|] == current_goals;
    }

    /** `get_time_based_suggestions`, for the local hour `hour`. */
    method TimeBasedSuggestions(hour: nat) returns (r: seq<EnhancedSuggestion>)
      ensures r == TimeSuggestions(analyzer.time_preferences, hour)
    {
      r := [];
      if hour in analyzer.time_preferences {
        var commands := Take(analyzer.time_preferences[hour], 2);
        for i := 0 to |commands|
          invariant r == TimeCommands(commands[..i])
        {
          assert commands[..i + 1][..i] == commands[..i];
          r := r + [Enhanced(commands[i], 0.6, TimeBased)];
        }
        assert commands[..|commands|] == commands;
      }
    }

    /** `apply_diversity_filter`. */
    method ApplyDiversityFilter(suggestions: seq<EnhancedSuggestion>) returns (filtered: seq<EnhancedSuggestion>)
      ensures filtered == DiversityOf(suggestions, config.max_suggestions)
    {
      var max := config.max_suggestions;
      filtered := [];
      var seen: map<CommandCategory, nat> := map[];
      var i := 0;
      assert Diverse(suggestions[..0]) == [] by {
        assert suggestions[..0] == [];
      }
      while i < |suggestions|
        invariant 0 <= i <= |suggestions|
        invariant filtered == Diverse(suggestions[..i])
        invariant CountsSeen(filtered, seen)
        invariant i > 0 ==> |filtered| < max
      {
        DiverseStep(suggestions, i);
        filtered, seen := Admit(filtered, seen, suggestions[i]);
        i := i + 1;
        if |filtered| >= max {
          DiversityCut(suggestions, i, max);
          break;
        }
      }
      if |filtered| < max || i == 0 {
        DiversityWhole(suggestions, max);
      }
    }

    /** `generate_suggestions`; `order` is the iteration order of the usage map and `hour` the local hour. */
    method GenerateSuggestions(mode: SystemMode, partial: Option<string>, order: seq<string>, hour: nat)
      returns (r: seq<EnhancedSuggestion>)
      requires IsOrderOf(order, analyzer.usage_patterns.Keys)
      ensures r == GenerateOf(analyzer.usage_patterns, analyzer.time_preferences, current_goals, config, mode, order, hour)
      ensures |r| <= 2 && SortedDesc(r, Confidence)
    {
      var suggestions := ContextSuggestions(mode);
      var behavior := BehaviorSuggestions(order);
      var goals := GoalOrientedSuggestions();
      var time := TimeBasedSuggestions(hour);
      suggestions := suggestions + behavior + goals + time;
      var ranked := Rank(suggestions);
      r := ApplyDiversityFilter(ranked);
      GenerateShape(analyzer.usage_patterns, analyzer.time_preferences, current_goals, config, mode, order, hour);
    }

    /** `get_category_suggestions`. */
    method GetCategorySuggestions(category: CommandCategory) returns (r: seq<CategorySuggestion>)
      ensures r == Take(SortDesc(CategoryEntries(RelevantCommands(category), category), CategoryConfidence), config.max_suggestions)
      ensures |r| <= config.max_suggestions && SortedDesc(r, CategoryConfidence)
      ensures r == []
    {
      var commands := RelevantCommands(category);
      var suggestions := CategoryEntriesFor(commands, category);
      r := Take(SortDesc(suggestions, CategoryConfidence), config.max_suggestions);
      CategoryEntriesRanked(commands, category, config.max_suggestions);
    }

    /**
     * `learn_from_feedback`: the feedback is stored under its id; the
     * learning steps it triggers change nothing yet.
     */
    method LearnFromFeedback(feedback: SuggestionFeedback)
      modifies this
      ensures suggestion_feedback == old(suggestion_feedback)[feedback.suggestion_id := feedback]
      ensures current_goals == old(current_goals) && config == old(config)
    {
      suggestion_feedback := suggestion_feedback[feedback.suggestion_id := feedback];
    }

    /** `record_command_execution`: the use is recorded; transitions and goals are not updated yet. */
    method RecordCommandExecution(command: string, success: bool, now: nat)
      requires Valid()
      modifies analyzer
      ensures Valid()
      ensures analyzer.usage_patterns == old(analyzer.usage_patterns)[command := Recorded(old(analyzer.PatternOf(command)), success, now)]
      ensures analyzer.time_preferences == old(analyzer.time_preferences)
    {
      analyzer.RecordCommandUsage(command, success, now);
    }
  }

  // ---------------------------------------------------------------------
  // Scenarios of the module's tests
  // ---------------------------------------------------------------------

  /** A new engine allows five suggestions and learns. */
  method CreationScenario() returns (max: nat, learning: bool)
    ensures max == 5 && learning
  {
    var engine := new CommandSuggestionEngine();
    max := engine.config.max_suggestions;
    learning := engine.config.enable_learning;
  }

  /** One recorded use gives one use and one frequent command. */
  method BehaviorAnalyzerScenario(now: nat) returns (uses: nat, frequent: seq<(string, nat)>)
    ensures uses == 1
    ensures |frequent| == 1 && frequent[0].0 == "test_command"
  {
    var analyzer := new UserBehaviorAnalyzer();
    analyzer.RecordCommandUsage("test_command", true, now);
    uses := analyzer.usage_patterns["test_command"].total_uses;
    assert analyzer.usage_patterns.Keys == {"test_command"};
    frequent := analyzer.FrequentCommands(["test_command"], 5);
  }

  /** A new engine in normal mode suggests starting narration. */
  method GenerationScenario(hour: nat) returns (suggestions: seq<EnhancedSuggestion>)
    ensures suggestions == [Enhanced("enable_narration", 0.7, ContextualRelevance)]
  {
    var engine := new CommandSuggestionEngine();
    suggestions := engine.GenerateSuggestions(Normal, Some("ena"), [], hour);
    assert CM.FrequencyPairs(UsesOf(map[]), []) == [];
    var cs := Candidates(map[], map[], [], Normal, [], hour);
    assert cs == [Enhanced("enable_narration", 0.7, ContextualRelevance)];
    assert Diverse(cs[..0]) == [];
    assert cs[..1] == cs;
  }
}
