/**
 * System commands: service restart, configuration reload, cache clearing,
 * backups, metrics, log export, update check, version, exit, diagnostics,
 * the log level and the reset to default settings.
 */
module SystemCommands {
  import opened Common
  import opened Regexes
  import opened VoiceTypes

  datatype Kind =
    | RestartService | ReloadConfig | ClearCache | BackupSettings | ShowMetrics | ExportLogs
    | CheckUpdates | ShowVersion | ExitApplication | RunDiagnostics | SetLogLevel | ResetDefaults

  /** The commands of this file in the order `register_system_commands` registers them. */
  const Registered: seq<Kind> := [
    RestartService, ReloadConfig, ClearCache, BackupSettings, ShowMetrics, ExportLogs,
    CheckUpdates, ShowVersion, ExitApplication, RunDiagnostics, SetLogLevel, ResetDefaults]

  function Name(k: Kind): string
  {
    match k
    case RestartService => "restart_service"
    case ReloadConfig => "reload_config"
    case ClearCache => "clear_cache"
    case BackupSettings => "backup_settings"
    case ShowMetrics => "show_metrics"
    case ExportLogs => "export_logs"
    case CheckUpdates => "check_updates"
    case ShowVersion => "show_version"
    case ExitApplication => "exit_application"
    case RunDiagnostics => "run_diagnostics"
    case SetLogLevel => "set_log_level"
    case ResetDefaults => "reset_defaults"
  }

  function Category(k: Kind): CommandCategory { System }

  /** `(debug|info|warn|error)` */
  const LevelChoice: Group := Choice([Lit("debug"), Lit("info"), Lit("warn"), Lit("error")])

  function Patterns(k: Kind): seq<PatternType>
  {
    match k
    case RestartService =>
      Exacts(["restart service", "restart system", "restart app", "reload service", "system restart"])
    case ReloadConfig =>
      Exacts(["reload config", "reload configuration", "refresh config", "reload settings", "refresh settings"])
    case ClearCache =>
      Exacts(["clear cache", "flush cache", "empty cache", "clean cache", "reset cache"])
    case BackupSettings =>
      Exacts(["backup settings", "save settings", "backup config", "export settings", "create backup"])
    case ShowMetrics =>
      Exacts(["show metrics", "performance metrics", "show performance", "system metrics", "show stats",
              "performance stats"])
    case ExportLogs =>
      Exacts(["export logs", "save logs", "dump logs", "backup logs", "collect logs"])
    case CheckUpdates =>
      Exacts(["check for updates", "check updates", "update check", "any updates", "software updates"])
    case ShowVersion =>
      Exacts(["show version", "version", "version info", "about", "what version"])
    case ExitApplication =>
      Exacts(["exit", "quit", "shutdown", "exit application", "quit application", "close application", "goodbye"])
    case RunDiagnostics =>
      Exacts(["run diagnostics", "system diagnostics", "check system", "diagnostics", "system check", "health check"])
    case SetLogLevel =>
      [Regex(Simple("set log level to ", LevelChoice, "")), Regex(Simple("log level ", LevelChoice, "")),
       Regex(Simple("change log level to ", LevelChoice, ""))]
    case ResetDefaults =>
      Exacts(["reset to defaults", "reset settings", "default settings", "factory reset", "restore defaults"])
  }

  // ---------------------------------------------------------------------
  // Handlers
  // ---------------------------------------------------------------------

  const MetricsText: string :=
    "Performance Metrics:\n"
    + "\U{2022} CPU Usage: 15.2%\n"
    + "\U{2022} Memory Usage: 142.5 MB\n"
    + "\U{2022} Audio Latency: 45ms\n"
    + "\U{2022} STT Processing: 0.23x real-time\n"
    + "\U{2022} Commands Processed: 127\n"
    + "\U{2022} Success Rate: 98.4%\n"
    + "\U{2022} Uptime: 2h 34m"

  const DiagnosticsText: string :=
    "Running system diagnostics...\n"
    + "\U{2713} Audio system: OK\n"
    + "\U{2713} STT service: OK\n"
    + "\U{2713} Clipboard service: OK\n"
    + "\U{2713} Memory usage: Normal\n"
    + "\U{2713} Network connectivity: OK\n"
    + "\U{2713} File permissions: OK\n"
    + "\nAll systems operational."

  /** The backup name embeds the timestamp after a fixed prefix. */
  function BackupName(stamp: string): (n: string)
    ensures StartsWith(n, "settings_backup_") && n[|"settings_backup_"|..] == stamp
  {
    "settings_backup_" + stamp
  }

  /** The exported log file is named after the timestamp and ends in ".txt". */
  function LogFileName(stamp: string): (n: string)
    ensures StartsWith(n, "stt_clippy_logs_") && EndsWith(n, ".txt")
    ensures |n| == |stamp| + 20 && n[16..|n| - 4] == stamp
  {
    "stt_clippy_logs_" + stamp + ".txt"
  }

  function VersionText(env: Env): (m: string)
    ensures StartsWith(m, "STT Clippy Version Information:\n")
    ensures EndsWith(m, "\U{2022} Rust Version: 1.70+")
  {
    var m := "STT Clippy Version Information:\n"
      + "\U{2022} Version: " + env.version + "\n"
      + "\U{2022} Build: " + env.package + "\n"
      + "\U{2022} Platform: " + env.platform + "\n"
      + "\U{2022} Rust Version: 1.70+";
    assert m[..|"STT Clippy Version Information:\n"|] == "STT Clippy Version Information:\n";
    assert m[|m| - |"\U{2022} Rust Version: 1.70+"|..] == "\U{2022} Rust Version: 1.70+";
    m
  }

  /** The expression the log-level handler reads the level with: `log level (?:to )?(debug|info|warn|error)`. */
  const LogLevelValue: Rx := Rx(["log level "], ["to "], LevelChoice, "")

  const LogLevels: seq<string> := ["debug", "info", "warn", "error"]

  /** Echoes one of the four log levels; the context is never written. */
  function LogLevelSet(text: string, ctx: SystemContext): (o: Outcome)
    ensures o.ctx == ctx
    ensures o.result.Ok? <==> Capture(LogLevelValue, text).Some?
    ensures o.result.Ok? ==>
      var level := Capture(LogLevelValue, text).value;
      level in LogLevels && o.result.value == SuccessWithData("Log level set to " + level, Text(level))
    ensures o.result.Err? ==> o.result.error == InvalidParameters("Valid log levels: debug, info, warn, error")
  {
    match Capture(LogLevelValue, text)
    case Some(level) =>
      LiteralChoiceCapture(LogLevelValue, text);
      Done(SuccessWithData("Log level set to " + level, Text(level)), ctx)
    case None => Fail(InvalidParameters("Valid log levels: debug, info, warn, error"), ctx)
  }

  /** Puts audio and speech-to-text settings back to their defaults and returns to normal mode. */
  function DefaultsRestored(ctx: SystemContext): (o: Outcome)
    ensures o.result == Ok(Success("All settings reset to defaults"))
    ensures o.ctx.mode == Normal && o.ctx.audio == DefaultAudioState() && o.ctx.stt == DefaultSttState()
    ensures o.ctx.recent_commands == ctx.recent_commands && o.ctx.session_data == ctx.session_data
            && o.ctx.environment == ctx.environment
  {
    Done(Success("All settings reset to defaults"),
         ctx.(audio := DefaultAudioState(), stt := DefaultSttState(), mode := Normal))
  }

  /** Runs a system command on the context. */
  function Execute(k: Kind, params: CommandParams, ctx: SystemContext, env: Env): (o: Outcome)
    ensures k != ResetDefaults ==> o.ctx == ctx
    ensures o.result.Err? ==> k == SetLogLevel
    ensures o.result.Ok? ==> o.result.value.success
    ensures k in {RestartService, ReloadConfig, ShowMetrics} ==> o.result.Ok? && o.result.value.data.None?
  {
    match k
    case RestartService => Done(Success("System service restarted successfully"), ctx)
    case ReloadConfig => Done(Success("Configuration reloaded from disk"), ctx)
    case ClearCache => Done(Success("System cache cleared"), ctx)
    case BackupSettings =>
      var name := BackupName(env.stamp);
      Done(SuccessWithData("Settings backed up as: " + name, Text(name)), ctx)
    case ShowMetrics => Done(Success(MetricsText), ctx)
    case ExportLogs =>
      var file := LogFileName(env.stamp);
      Done(SuccessWithData("Logs exported to: " + file, Text(file)), ctx)
    case CheckUpdates => Done(Success("Checking for updates... Current version is up to date."), ctx)
    case ShowVersion => Done(Success(VersionText(env)), ctx)
    case ExitApplication => Done(Success("Shutting down STT Clippy... Goodbye!"), ctx)
    case RunDiagnostics => Done(Success(DiagnosticsText), ctx)
    case SetLogLevel => LogLevelSet(params.text, ctx)
    case ResetDefaults => DefaultsRestored(ctx)
  }

  // ---------------------------------------------------------------------
  // Properties
  // ---------------------------------------------------------------------

  /** After a reset the context agrees with the default context on everything the reset writes. */
  lemma ResetMatchesDefault(params: CommandParams, ctx: SystemContext, env: Env)
    ensures var c := Execute(ResetDefaults, params, ctx, env).ctx;
      c == DefaultContext(ctx.environment).(recent_commands := ctx.recent_commands, session_data := ctx.session_data)
  {
  }

  /** Resetting twice is the same as resetting once. */
  lemma ResetIdempotent(params: CommandParams, ctx: SystemContext, env: Env)
    ensures var c := Execute(ResetDefaults, params, ctx, env).ctx;
      Execute(ResetDefaults, params, c, env).ctx == c
  {
  }

  /** The metrics report is the one the source's test looks for. */
  lemma MetricsMentionsPerformance(params: CommandParams, ctx: SystemContext, env: Env)
    ensures var o := Execute(ShowMetrics, params, ctx, env);
      o.result.Ok? && o.result.value.success && Contains(o.result.value.message, "Performance Metrics")
  {
    ContainsPrefix(MetricsText, "Performance Metrics");
  }

  lemma NamesDistinct()
    ensures |Registered| == 12
    ensures forall i, j :: 0 <= i < j < |Registered| ==> Name(Registered[i]) != Name(Registered[j])
  {
  }

  lemma LogLevelDebugCapture(t: string)
    requires t == "set log level to debug"
    ensures Capture(LogLevelValue, t) == Some("debug")
  {
    assert OccursAt(t, "log level ", 4);
    forall j | 0 <= j < 4 ensures !OccursAt(t, "log level ", j) {
      Mismatch(t, "log level ", j, 0);
    }
    assert OccursAt(t, "to ", 14);
    assert ChoiceAt(LevelChoice.pieces, t, 17) == Some(22);
    assert GroupAndSuffix(LogLevelValue, t, 17) == Some((17, 22)) by { assert OccursAt(t, "", 22); }
    assert MatchAt(LogLevelValue, t, 4) == Some((17, 22));
    CaptureAt(LogLevelValue, t, 4);
    assert t[17..22] == "debug";
  }

  /** "set log level to debug" echoes "debug". */
  lemma LogLevelDebug(t: string, ctx: SystemContext)
    requires t == "set log level to debug"
    ensures LogLevelSet(t, ctx).ctx == ctx
    ensures LogLevelSet(t, ctx).result == Ok(SuccessWithData("Log level set to " + "debug", Text("debug")))
  {
    LogLevelDebugCapture(t);
  }
}
