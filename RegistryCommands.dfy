/**
 * The specialised commands the comprehensive registry adds on top of the
 * category modules (navigation, file management, advanced help, advanced
 * system commands and quick actions), and the hard-coded table of command
 * counts per category.
 */
module RegistryCommands {
  import opened Common
  import opened VoiceTypes

  datatype Kind =
    | NavigateToSettings | NavigateToHistory | NavigateToLogs
    | OpenLogFile | OpenConfigFile | OpenDataDirectory
    | ShowCommandList | SearchCommands | ExplainCommand | ShowShortcuts
    | ShowUptime | ShowMemoryUsage | ToggleDebugMode | BenchmarkSystem
    | QuickTest | QuickSave | QuickReset

  /** The commands of this file in the order `register_specialized_commands` registers them. */
  const Registered: seq<Kind> := [
    NavigateToSettings, NavigateToHistory, NavigateToLogs,
    OpenLogFile, OpenConfigFile, OpenDataDirectory,
    ShowCommandList, SearchCommands, ExplainCommand, ShowShortcuts,
    ShowUptime, ShowMemoryUsage, ToggleDebugMode, BenchmarkSystem,
    QuickTest, QuickSave, QuickReset]

  function Name(k: Kind): string
  {
    match k
    case NavigateToSettings => "navigate_to_settings"
    case NavigateToHistory => "navigate_to_history"
    case NavigateToLogs => "navigate_to_logs"
    case OpenLogFile => "open_log_file"
    case OpenConfigFile => "open_config_file"
    case OpenDataDirectory => "open_data_directory"
    case ShowCommandList => "show_command_list"
    case SearchCommands => "search_commands"
    case ExplainCommand => "explain_command"
    case ShowShortcuts => "show_shortcuts"
    case ShowUptime => "show_uptime"
    case ShowMemoryUsage => "show_memory_usage"
    case ToggleDebugMode => "toggle_debug_mode"
    case BenchmarkSystem => "benchmark_system"
    case QuickTest => "quick_test"
    case QuickSave => "quick_save"
    case QuickReset => "quick_reset"
  }

  function Category(k: Kind): CommandCategory
  {
    match k
    case NavigateToSettings | NavigateToHistory | NavigateToLogs => Navigation
    case OpenLogFile | OpenConfigFile | OpenDataDirectory => FileManagement
    case ShowCommandList | SearchCommands | ExplainCommand | ShowShortcuts => CommandCategory.Help
    case ShowUptime | ShowMemoryUsage | ToggleDebugMode | BenchmarkSystem | QuickTest | QuickSave | QuickReset => System
  }

  function Patterns(k: Kind): seq<PatternType>
  {
    match k
    case NavigateToSettings => Exacts(["go to settings", "open settings", "settings", "configuration"])
    case NavigateToHistory => Exacts(["show history", "command history", "history", "recent commands"])
    case NavigateToLogs => Exacts(["show logs", "open logs", "logs", "system logs"])
    case OpenLogFile => Exacts(["open log file", "edit log file", "view log file"])
    case OpenConfigFile => Exacts(["open config file", "edit config", "open configuration"])
    case OpenDataDirectory => Exacts(["open data directory", "show data folder", "data directory"])
    case ShowCommandList => Exacts(["list all commands", "show all commands", "command list", "all commands"])
    case SearchCommands =>
      [ContainsText("search commands for"), ContainsText("find commands for"), ContainsText("search for")]
    case ExplainCommand => [ContainsText("explain command"), ContainsText("what does"), ContainsText("how does")]
    case ShowShortcuts => Exacts(["show shortcuts", "shortcuts", "quick commands", "command shortcuts"])
    case ShowUptime => Exacts(["show uptime", "uptime", "how long running"])
    case ShowMemoryUsage => Exacts(["show memory usage", "memory usage", "memory stats"])
    case ToggleDebugMode => Exacts(["toggle debug mode", "debug mode", "enable debug", "disable debug"])
    case BenchmarkSystem => Exacts(["benchmark system", "performance test", "system benchmark"])
    case QuickTest => Exacts(["quick test", "test", "self test"])
    case QuickSave => Exacts(["quick save", "save now", "save state"])
    case QuickReset => Exacts(["quick reset", "soft reset", "reset core"])
  }

  // ---------------------------------------------------------------------
  // Handlers that write the context
  // ---------------------------------------------------------------------

  /** Switches to configuration mode and changes nothing else. */
  function SettingsOpened(ctx: SystemContext): (o: Outcome)
    ensures o.result == Ok(Success("Navigated to settings"))
    ensures o.ctx.mode == Configuration
    ensures o.ctx.audio == ctx.audio && o.ctx.stt == ctx.stt && o.ctx.recent_commands == ctx.recent_commands
            && o.ctx.session_data == ctx.session_data && o.ctx.environment == ctx.environment
  {
    Done(Success("Navigated to settings"), ctx.(mode := Configuration))
  }

  /** Restores sensitivity, voice activity detection and instant output, leaving the rest of the settings alone. */
  function CoreSettingsReset(ctx: SystemContext): (o: Outcome)
    ensures o.result == Ok(Success("Quick reset completed - core settings restored"))
    ensures o.ctx.audio == ctx.audio.(sensitivity := 0.5, vad_enabled := true)
    ensures o.ctx.stt == ctx.stt.(instant_output := false)
    ensures o.ctx.mode == ctx.mode && o.ctx.recent_commands == ctx.recent_commands
            && o.ctx.session_data == ctx.session_data && o.ctx.environment == ctx.environment
  {
    var audio := ctx.audio.(sensitivity := 0.5, vad_enabled := true);
    var stt := ctx.stt.(instant_output := false);
    Done(Success("Quick reset completed - core settings restored"), ctx.(audio := audio, stt := stt))
  }

  // ---------------------------------------------------------------------
  // Help texts that echo part of the request
  // ---------------------------------------------------------------------

  /** The spoken text with every occurrence of the three search lead-ins removed, one after the other. */
  function SearchTerm(text: string): string
  {
    ReplaceAll(ReplaceAll(ReplaceAll(text, "search commands for ", ""), "search for ", ""), "find commands for ", "")
  }

  /** The spoken text with "explain command ", "explain ", "what does " and " do" removed, in that order. */
  function ExplainedName(text: string): string
  {
    ReplaceAll(ReplaceAll(ReplaceAll(ReplaceAll(text, "explain command ", ""), "explain ", ""), "what does ", ""), " do", "")
  }

  /** "search commands for W" echoes W when W holds none of the lead-ins. */
  lemma SearchTermOf(w: string)
    requires !Contains(w, "search commands for ") && !Contains(w, "search for ") && !Contains(w, "find commands for ")
    ensures SearchTerm("search commands for " + w) == w
  {
    ReplaceAllLeading("search commands for ", w, "");
    var a := ReplaceAll("search commands for " + w, "search commands for ", "");
    assert a == "" + w;
    assert a == w;
    assert ReplaceAll(a, "search for ", "") == w;
  }

  /** "explain command W" echoes W when W holds none of the removed phrases. */
  lemma ExplainedNameOf(w: string)
    requires !Contains(w, "explain command ") && !Contains(w, "explain ") && !Contains(w, "what does ")
    requires !Contains(w, " do")
    ensures ExplainedName("explain command " + w) == w
  {
    ReplaceAllLeading("explain command ", w, "");
    var a := ReplaceAll("explain command " + w, "explain command ", "");
    assert a == "" + w;
    assert a == w;
    assert ReplaceAll(a, "explain ", "") == w;
    assert ReplaceAll(w, "what does ", "") == w;
  }

  const CommandListText: string :=
    "Available Command Categories:\n"
    + "\U{2022} Audio Commands (12): VAD, sensitivity, devices, etc.\n"
    + "\U{2022} STT Commands (11): models, language, output, etc.\n"
    + "\U{2022} System Commands (12): restart, backup, metrics, etc.\n"
    + "\U{2022} Navigation Commands (3): settings, history, logs\n"
    + "\U{2022} File Management (3): open files and directories\n"
    + "\U{2022} Help Commands (4): search, explain, shortcuts\n"
    + "\n"
    + "Say 'help [category]' for specific commands."

  const ShortcutsText: string :=
    "Voice Command Shortcuts:\n"
    + "\U{2022} 'vad on/off' \U{2192} enable/disable VAD\n"
    + "\U{2022} 'sens up/down' \U{2192} adjust sensitivity\n"
    + "\U{2022} 'instant' \U{2192} toggle instant output\n"
    + "\U{2022} 'status' \U{2192} show system status\n"
    + "\U{2022} 'help' \U{2192} show help\n"
    + "\U{2022} 'restart' \U{2192} restart service\n"
    + "\U{2022} 'quit' \U{2192} exit application"

  const UptimeText: string :=
    "System Uptime: 2 hours, 34 minutes, 18 seconds\n"
    + "Started: 2024-01-15 14:25:42 UTC\n"
    + "Total Commands: 127\n"
    + "Success Rate: 98.4%"

  const MemoryText: string :=
    "Memory Usage:\n"
    + "\U{2022} Total Allocated: 142.5 MB\n"
    + "\U{2022} Audio Buffers: 12.3 MB\n"
    + "\U{2022} STT Cache: 45.7 MB\n"
    + "\U{2022} Command History: 2.1 MB\n"
    + "\U{2022} System Overhead: 82.4 MB\n"
    + "\U{2022} Available Memory: 7.2 GB"

  const BenchmarkText: string :=
    "Running system benchmark...\n"
    + "Audio Processing: 156.2 ops/sec\n"
    + "STT Inference: 2.3x real-time\n"
    + "Command Processing: 1,247 ops/sec\n"
    + "Memory Allocation: 45.2 MB/sec\n"
    + "\n"
    + "Benchmark completed. System performance: Excellent"

  /** Runs a specialised command; only the settings navigation and the quick reset write the context. */
  function Execute(k: Kind, params: CommandParams, ctx: SystemContext): (o: Outcome)
    ensures k !in {NavigateToSettings, QuickReset} ==> o.ctx == ctx
    ensures o.result.Ok? && o.result.value.success && o.result.value.data.None?
  {
    match k
    case NavigateToSettings => SettingsOpened(ctx)
    case NavigateToHistory => Done(Success("Opened command history"), ctx)
    case NavigateToLogs => Done(Success("Opened system logs"), ctx)
    case OpenLogFile => Done(Success("Log file opened in default editor"), ctx)
    case OpenConfigFile => Done(Success("Configuration file opened in default editor"), ctx)
    case OpenDataDirectory => Done(Success("Data directory opened in file manager"), ctx)
    case ShowCommandList => Done(Success(CommandListText), ctx)
    case SearchCommands =>
      var results := "Search results for '" + SearchTerm(params.text) + "':\n"
        + "Found 3 matching commands:\n"
        + "\U{2022} enable_vad - Enable voice activity detection\n"
        + "\U{2022} show_audio_devices - Show available audio devices\n"
        + "\U{2022} set_sensitivity - Set VAD sensitivity level";
      Done(Success(results), ctx)
    case ExplainCommand =>
      var explanation := "Command Explanation for '" + ExplainedName(params.text) + "':\n"
        + "This command controls voice activity detection settings.\n"
        + "Usage: Say 'enable vad' to activate voice detection.\n"
        + "Related: disable_vad, set_sensitivity";
      Done(Success(explanation), ctx)
    case ShowShortcuts => Done(Success(ShortcutsText), ctx)
    case ShowUptime => Done(Success(UptimeText), ctx)
    case ShowMemoryUsage => Done(Success(MemoryText), ctx)
    case ToggleDebugMode => Done(Success("Debug mode toggled"), ctx)
    case BenchmarkSystem => Done(Success(BenchmarkText), ctx)
    case QuickTest => Done(Success("Quick test completed - all systems operational"), ctx)
    case QuickSave => Done(Success("Current state saved"), ctx)
    case QuickReset => CoreSettingsReset(ctx)
  }

  // ---------------------------------------------------------------------
  // Properties
  // ---------------------------------------------------------------------

  /** Opening the settings twice is the same as opening them once. */
  lemma SettingsIdempotent(params: CommandParams, ctx: SystemContext)
    ensures var c := Execute(NavigateToSettings, params, ctx).ctx;
      Execute(NavigateToSettings, params, c).ctx == c
  {
  }

  /** The quick reset is idempotent, and after a full reset to defaults it changes nothing. */
  lemma QuickResetIdempotent(params: CommandParams, ctx: SystemContext)
    ensures var c := Execute(QuickReset, params, ctx).ctx;
      Execute(QuickReset, params, c).ctx == c
    ensures var d := ctx.(audio := DefaultAudioState(), stt := DefaultSttState(), mode := Normal);
      Execute(QuickReset, params, d).ctx == d
  {
  }

  /** Only the quick reset's three fields separate its result from the old context: sample rate, model and mode survive. */
  lemma QuickResetKeepsRest(params: CommandParams, ctx: SystemContext)
    ensures var c := Execute(QuickReset, params, ctx).ctx;
      c.audio.sample_rate == ctx.audio.sample_rate && c.stt.current_model == ctx.stt.current_model
      && c.mode == ctx.mode && c.audio.sensitivity == 0.5 && c.audio.vad_enabled && !c.stt.instant_output
  {
  }

  lemma NamesDistinct()
    ensures |Registered| == 17
    ensures forall i, j :: 0 <= i < j < |Registered| ==> Name(Registered[i]) != Name(Registered[j])
  {
  }

  // ---------------------------------------------------------------------
  // The hard-coded command counts
  // ---------------------------------------------------------------------

  /** Every category, in declaration order. */
  const AllCategories: seq<CommandCategory> :=
    [Audio, Stt, System, FileManagement, Tools, Navigation, CommandCategory.Help, CommandCategory.Recording, Transcription, Parameters]

  lemma EveryCategoryListed(c: CommandCategory)
    ensures c in AllCategories
  {
    match c
    case Audio => case Stt => case System => case FileManagement => case Tools =>
    case Navigation => case Help => case Recording => case Transcription => case Parameters =>
  }

  /** `get_command_counts`: the table as written, one entry for every category. */
  function CommandCounts(): (m: map<CommandCategory, nat>)
    ensures forall c :: c in AllCategories ==> c in m
  {
    var m := map[Audio := 12, Stt := 11, System := 15, Navigation := 3, FileManagement := 3, CommandCategory.Help := 4,
        Tools := 0, CommandCategory.Recording := 0, Transcription := 0, Parameters := 0];
    m
  }

  function SumOver(cs: seq<CommandCategory>, m: map<CommandCategory, nat>): nat
    requires forall i :: 0 <= i < |cs| ==> cs[i] in m
  {
    if |cs| == 0 then 0 else m[cs[0]] + SumOver(cs[1..], m)
  }

  /** `get_total_command_count` as written: the sum of the table, 48 commands. */
  function TotalCommandCountAsWritten(): (n: nat)
    ensures n == 48
  {
    SumOver(AllCategories, CommandCounts())
  }
}
