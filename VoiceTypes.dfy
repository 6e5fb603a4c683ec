/**
 * The data the voice-command framework passes around: the system context
 * that commands read and update, command results and errors, patterns,
 * and the values the environment supplies (clock readings and identifiers).
 */
module VoiceTypes {
  import opened Common
  import opened Regexes

  datatype SystemMode = Normal | Narration | Recording | Configuration | Help | Maintenance

  /** `format!("{:?}", mode)`. */
  function ModeName(m: SystemMode): string
  {
    match m
    case Normal => "Normal"
    case Narration => "Narration"
    case Recording => "Recording"
    case Configuration => "Configuration"
    case Help => "Help"
    case Maintenance => "Maintenance"
  }

  datatype AudioState = AudioState(
    vad_enabled: bool,
    sensitivity: real,
    sample_rate: nat,
    channels: nat,
    buffer_size: nat,
    current_device: Option<string>,
    recording_active: bool)

  datatype SttState = SttState(
    current_model: string,
    language: Option<string>,
    instant_output: bool,
    confidence_threshold: real,
    processing_queue_size: nat,
    last_transcription: Option<string>)

  /**
   * What the process knows about the machine it runs on.  Its default is
   * read from the operating system, so the model takes it as a value.
   */
  datatype EnvironmentContext = EnvironmentContext(
    platform: string,
    hostname: string,
    username: string,
    working_directory: string,
    active_applications: seq<string>,
    time_of_day: string)

  /** One command recorded after it ran: its name, category, spoken text, result and time. */
  datatype ExecutedCommand = ExecutedCommand(
    command_name: string,
    category: CommandCategory,
    parameters: string,
    result: CommandResult,
    timestamp: nat)

  /** The state every command receives; the handlers read and write its fields. */
  datatype SystemContext = SystemContext(
    mode: SystemMode,
    audio: AudioState,
    stt: SttState,
    recent_commands: seq<ExecutedCommand>,
    session_data: map<string, Json>,
    environment: EnvironmentContext)

  function DefaultAudioState(): AudioState
  {
    AudioState(true, 0.5, 16000, 1, 1024, None, false)
  }

  function DefaultSttState(): SttState
  {
    SttState("base", None, false, 0.6, 0, None)
  }

  /** `SystemContext::default()`, given the environment it reads from the operating system. */
  function DefaultContext(env: EnvironmentContext): SystemContext
  {
    SystemContext(Normal, DefaultAudioState(), DefaultSttState(), [], map[], env)
  }

  datatype CommandCategory =
    Audio | Stt | System | FileManagement | Tools | Navigation | Help | Recording | Transcription | Parameters

  /** A JSON value, as far as commands build them. */
  datatype Json = JBool(b: bool) | JNumber(n: real) | JString(s: string)

  datatype CommandData =
    | Text(text: string)
    | Number(number: real)
    | Boolean(flag: bool)
    | Object(fields: map<string, Json>)

  datatype CommandResult = CommandResult(success: bool, message: string, data: Option<CommandData>)

  function Success(message: string): CommandResult
  {
    CommandResult(true, message, None)
  }

  function SuccessWithData(message: string, data: CommandData): CommandResult
  {
    CommandResult(true, message, Some(data))
  }

  function Failure(message: string): CommandResult
  {
    CommandResult(false, message, None)
  }

  datatype VoiceCommandError =
    | CommandNotFound(name: string)
    | InvalidParameters(detail: string)
    | ExecutionFailed(detail: string)
    | PermissionDenied(detail: string)
    | Timeout
    | ServiceUnavailable(detail: string)
    | ContextValidationFailed(detail: string)

  /** The `Display` text of an error, which the engine uses as the key of its error counts. */
  function ErrorText(e: VoiceCommandError): string
  {
    match e
    case CommandNotFound(n) => "Command not found: " + n
    case InvalidParameters(d) => "Invalid command parameters: " + d
    case ExecutionFailed(d) => "Command execution failed: " + d
    case PermissionDenied(d) => "Permission denied for command: " + d
    case Timeout => "Command timeout"
    case ServiceUnavailable(d) => "Service unavailable: " + d
    case ContextValidationFailed(d) => "Context validation failed: " + d
  }

  /** Distinct errors of the same kind are counted under distinct keys. */
  lemma ErrorTextInjective(e1: VoiceCommandError, e2: VoiceCommandError)
    requires e1.InvalidParameters? && e2.InvalidParameters?
    requires ErrorText(e1) == ErrorText(e2)
    ensures e1 == e2
  {
    var pre := "Invalid command parameters: ";
    assert e1.detail == ErrorText(e1)[|pre|..];
    assert e2.detail == ErrorText(e2)[|pre|..];
  }

  datatype PatternType =
    | Exact(text: string)
    | ContainsText(text: string)
    | Regex(rx: Rx)
    | Fuzzy(text: string, threshold: real)

  /** A list of exact phrases, the most common shape of a command's patterns. */
  function Exacts(ss: seq<string>): (ps: seq<PatternType>)
    ensures |ps| == |ss| && forall i :: 0 <= i < |ss| ==> ps[i] == Exact(ss[i])
  {
    seq(|ss|, i requires 0 <= i < |ss| => Exact(ss[i]))
  }

  /** What the command sees of its parameters: the spoken text as recognised, and its confidence. */
  datatype CommandParams = CommandParams(text: string, confidence: real)

  /**
   * Values the environment supplies while a command runs: the current time
   * in milliseconds, the same instant formatted as `%Y%m%d_%H%M%S`, a
   * freshly generated identifier, and what the build and the operating
   * system report (package version, package name, platform).
   */
  datatype Env = Env(now: nat, stamp: string, uuid: string, version: string, package: string, platform: string)

  /** The result of running a command together with the context it leaves behind. */
  datatype Outcome = Outcome(result: Result<CommandResult, VoiceCommandError>, ctx: SystemContext)

  function Done(r: CommandResult, ctx: SystemContext): Outcome
  {
    Outcome(Ok(r), ctx)
  }

  function Fail(e: VoiceCommandError, ctx: SystemContext): Outcome
  {
    Outcome(Err(e), ctx)
  }
}
