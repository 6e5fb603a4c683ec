/**
 * Building the comprehensive engine: every command of the catalogue is
 * registered, in the catalogue's order, into an engine that starts empty.
 */
module Registration {
  import opened Common
  import opened VoiceTypes
  import C = Catalog
  import Basic = BasicCommands
  import opened VoiceEngine

  /** The command map after registering `cs` one after the other into `m`. */
  function Insert(m: map<string, C.Command>, cs: seq<C.Command>): map<string, C.Command>
  {
    if |cs| == 0 then m
    else Insert(m, cs[..|cs| - 1])[C.Name(cs[|cs| - 1]) := cs[|cs| - 1]]
  }

  /** The pattern list after registering `cs` one after the other. */
  function AllPatterns(cs: seq<C.Command>): seq<CommandPattern>
  {
    if |cs| == 0 then []
    else AllPatterns(cs[..|cs| - 1]) + PatternsFor(C.Name(cs[|cs| - 1]), C.Patterns(cs[|cs| - 1]))
  }

  /** Registration keeps every command under its own name. */
  lemma {:induction false} InsertKeys(m: map<string, C.Command>, cs: seq<C.Command>)
    requires forall n :: n in m ==> C.Name(m[n]) == n
    ensures forall n :: n in Insert(m, cs) ==> C.Name(Insert(m, cs)[n]) == n
  {
    if |cs| > 0 {
      InsertKeys(m, cs[..|cs| - 1]);
    }
  }

  /** The last name differs from every earlier one. */
  lemma LastNameFresh(m: map<string, C.Command>, cs: seq<C.Command>)
    requires |cs| > 0 && C.Distinct(cs)
    requires forall j :: 0 <= j < |cs| ==> C.Name(cs[j]) !in m
    ensures C.Name(cs[|cs| - 1]) !in Insert(m, cs[..|cs| - 1])
  {
    var init := cs[..|cs| - 1];
    InsertKeysPlain(m, init);
  }

  /** With distinct names, nothing is overwritten: every command is found under its name. */
  lemma {:induction false} InsertLookup(m: map<string, C.Command>, cs: seq<C.Command>, j: nat)
    requires C.Distinct(cs) && j < |cs|
    ensures C.Name(cs[j]) in Insert(m, cs) && Insert(m, cs)[C.Name(cs[j])] == cs[j]
  {
    var init := cs[..|cs| - 1];
    if j < |cs| - 1 {
      assert C.Distinct(init);
      InsertLookup(m, init, j);
      assert init[j] == cs[j];
      assert C.Name(cs[j]) != C.Name(cs[|cs| - 1]);
    }
  }

  /** With distinct names that are new to `m`, each registration adds one entry. */
  lemma {:induction false} InsertSize(m: map<string, C.Command>, cs: seq<C.Command>)
    requires C.Distinct(cs)
    requires forall j :: 0 <= j < |cs| ==> C.Name(cs[j]) !in m
    ensures |Insert(m, cs)| == |m| + |cs|
  {
    if |cs| > 0 {
      var init := cs[..|cs| - 1];
      assert C.Distinct(init);
      InsertSize(m, init);
      LastNameFresh(m, cs);
    }
  }

  /** Registration adds exactly the names of the commands. */
  lemma {:induction false} InsertKeysPlain(m: map<string, C.Command>, cs: seq<C.Command>)
    ensures forall n :: n in Insert(m, cs) <==> n in m || n in C.Names(cs)
  {
    if |cs| > 0 {
      var init := cs[..|cs| - 1];
      InsertKeysPlain(m, init);
      forall n ensures n in C.Names(cs) <==> n in C.Names(init) || n == C.Name(cs[|cs| - 1]) {
        if n in C.Names(cs) {
          var k :| 0 <= k < |cs| && C.Names(cs)[k] == n;
          if k < |cs| - 1 {
            assert C.Names(init)[k] == n;
          }
        }
        if n in C.Names(init) {
          var k :| 0 <= k < |init| && C.Names(init)[k] == n;
          assert C.Names(cs)[k] == n;
        }
        assert C.Names(cs)[|cs| - 1] == C.Name(cs[|cs| - 1]);
      }
    }
  }

  /** The first command's patterns come first. */
  lemma {:induction false} AllPatternsHead(cs: seq<C.Command>)
    requires |cs| > 0
    ensures AllPatterns(cs) == PatternsFor(C.Name(cs[0]), C.Patterns(cs[0])) + AllPatterns(cs[1..])
  {
    if |cs| > 1 {
      var init := cs[..|cs| - 1];
      AllPatternsHead(init);
      assert init[1..] == cs[1..][..|cs[1..]| - 1];
      assert cs[1..][|cs[1..]| - 1] == cs[|cs| - 1];
    } else {
      assert cs[..0] == [] && cs[1..] == [];
    }
  }

  /** Registers `cs` one after the other. */
  method RegisterCommands(engine: VoiceCommandEngine, cs: seq<C.Command>)
    requires engine.Valid()
    modifies engine
    ensures engine.Valid()
    ensures engine.commands == Insert(old(engine.commands), cs)
    ensures engine.patterns == old(engine.patterns) + AllPatterns(cs)
    ensures engine.history == old(engine.history) && engine.context == old(engine.context)
    ensures engine.config == old(engine.config) && engine.metrics == old(engine.metrics)
  {
    ghost var m0 := engine.commands;
    ghost var p0 := engine.patterns;
    for i := 0 to |cs|
      invariant engine.Valid()
      invariant engine.commands == Insert(m0, cs[..i])
      invariant engine.patterns == p0 + AllPatterns(cs[..i])
      invariant engine.history == old(engine.history) && engine.context == old(engine.context)
      invariant engine.config == old(engine.config) && engine.metrics == old(engine.metrics)
    {
      ghost var before := engine.patterns;
      var _ := engine.RegisterCommand(cs[i]);
      assert cs[..i + 1][..i] == cs[..i];
      ghost var added := PatternsFor(C.Name(cs[i]), C.Patterns(cs[i]));
      assert AllPatterns(cs[..i + 1]) == AllPatterns(cs[..i]) + added;
      assert engine.patterns == before + added;
      assert Insert(m0, cs[..i + 1]) == Insert(m0, cs[..i])[C.Name(cs[i]) := cs[i]];
    }
    assert cs[..|cs|] == cs;
  }

  /**
   * `register_all_commands`: registers the basic, audio, recording,
   * transcript, speech-to-text, system and specialised commands in that
   * order. Registering never fails, so the early returns of the program's
   * `?` are never taken.
   */
  method RegisterAllCommands(engine: VoiceCommandEngine) returns (r: Result<(), VoiceCommandError>)
    requires engine.Valid()
    modifies engine
    ensures engine.Valid()
    ensures r.Ok?
    ensures engine.commands == Insert(old(engine.commands), C.AllRegistered)
    ensures engine.patterns == old(engine.patterns) + AllPatterns(C.AllRegistered)
    ensures engine.history == old(engine.history) && engine.context == old(engine.context)
    ensures engine.config == old(engine.config) && engine.metrics == old(engine.metrics)
  {
    RegisterCommands(engine, C.AllRegistered);
    r := Ok(());
  }

  /** `create_comprehensive_command_engine_with_config`. */
  method CreateComprehensiveEngineWithConfig(config: VoiceCommandConfig, environment: EnvironmentContext)
    returns (engine: VoiceCommandEngine)
    ensures fresh(engine) && engine.Valid()
    ensures engine.commands == Insert(map[], C.AllRegistered)
    ensures engine.patterns == AllPatterns(C.AllRegistered)
    ensures engine.history == [] && engine.context == DefaultContext(environment)
    ensures engine.config == config && engine.metrics == NoMetrics()
  {
    engine := new VoiceCommandEngine.WithConfig(config, environment);
    var _ := RegisterAllCommands(engine);
  }

  /** `create_comprehensive_command_engine`: the same with the default configuration. */
  method CreateComprehensiveEngine(environment: EnvironmentContext) returns (engine: VoiceCommandEngine)
    ensures fresh(engine) && engine.Valid()
    ensures engine.commands == Insert(map[], C.AllRegistered)
    ensures engine.patterns == AllPatterns(C.AllRegistered)
    ensures engine.history == [] && engine.context == DefaultContext(environment)
    ensures engine.config == DefaultConfig() && engine.metrics == NoMetrics()
  {
    engine := CreateComprehensiveEngineWithConfig(DefaultConfig(), environment);
  }

  /** The comprehensive engine holds all 82 commands, each under its own name. */
  lemma ComprehensiveCommands()
    ensures |Insert(map[], C.AllRegistered)| == 82
    ensures forall j :: 0 <= j < |C.AllRegistered| ==>
      C.Name(C.AllRegistered[j]) in Insert(map[], C.AllRegistered)
      && Insert(map[], C.AllRegistered)[C.Name(C.AllRegistered[j])] == C.AllRegistered[j]
  {
    C.RegisteredCount();
    C.RegisteredNamesDistinct();
    InsertSize(map[], C.AllRegistered);
    forall j | 0 <= j < |C.AllRegistered|
      ensures C.Name(C.AllRegistered[j]) in Insert(map[], C.AllRegistered)
        && Insert(map[], C.AllRegistered)[C.Name(C.AllRegistered[j])] == C.AllRegistered[j]
    {
      InsertLookup(map[], C.AllRegistered, j);
    }
  }

  /** The comprehensive engine has audio, speech-to-text and system commands. */
  lemma CategoriesPresent()
    ensures var cmds := Insert(map[], C.AllRegistered);
      (forall n :: n in cmds ==> C.Name(cmds[n]) == n)
      && CommandsInCategory(cmds, Audio) != {}
      && CommandsInCategory(cmds, Stt) != {}
      && CommandsInCategory(cmds, System) != {}
  {
    var cmds := Insert(map[], C.AllRegistered);
    InsertKeys(map[], C.AllRegistered);
    C.RegisteredCount();
    C.RegisteredNamesDistinct();
    var all := C.AllRegistered;
    assert all[10] == C.AudioPart[0];
    assert all[42] == C.SttPart[0];
    assert all[53] == C.SystemPart[0];
    InsertLookup(map[], all, 10);
    InsertLookup(map[], all, 42);
    InsertLookup(map[], all, 53);
    assert C.Name(all[10]) in CommandsInCategory(cmds, Audio);
    assert C.Name(all[42]) in CommandsInCategory(cmds, Stt);
    assert C.Name(all[53]) in CommandsInCategory(cmds, System);
  }

  /**
   * On the comprehensive engine, "enable vad" is matched by the first
   * pattern of the first command, runs it, and switches voice activity
   * detection on, changing nothing else in the context.
   */
  lemma EnableVadEndToEnd(st: EngineState, env: Env)
    requires |st.history| <= DefaultConfig().max_history_size
    ensures var s := ProcessOf(AllPatterns(C.AllRegistered), Insert(map[], C.AllRegistered), DefaultConfig(),
                               st, "enable vad", 0.95, env);
      && s.result.Ok? && s.result.value.success
      && s.state.context == st.context.(audio := st.context.audio.(vad_enabled := true))
      && s.state.metrics.successful_commands == st.metrics.successful_commands + 1
  {
    var all := C.AllRegistered;
    var ps := AllPatterns(all);
    var cmds := Insert(map[], all);
    C.RegisteredCount();
    assert all[0] == C.BasicCmd(Basic.EnableVad);
    AllPatternsHead(all);
    var first := PatternsFor("enable_vad", Basic.Patterns(Basic.EnableVad));
    assert ps[0] == first[0] == CommandPattern(Exact("enable vad"), "enable_vad", DefaultPriority, true);
    C.RegisteredNamesDistinct();
    InsertLookup(map[], all, 0);
    assert cmds["enable_vad"] == C.BasicCmd(Basic.EnableVad);
    var cats := Categories(cmds);
    assert cats["enable_vad"] == Audio;
    ToLowerIdentity("enable vad");
    assert DirectHit(ps[0], cats, Normalized(DefaultConfig(), "enable vad"));
    ParseFirstHit(ps, cats, DefaultConfig(), "enable vad", 0);
  }
}
