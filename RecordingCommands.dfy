/**
 * Audio recording commands: start, stop, pause and resume a recording,
 * list sessions, compress files, storage statistics and cleanup. Their
 * handlers answer with canned text and never write the context; what the
 * registry needs from them is their names and patterns.
 */
module RecordingCommands {
  import opened Common
  import opened VoiceTypes

  datatype Kind =
    | StartRecording | StopRecording | PauseRecording | ResumeRecording
    | ListSessions | CompressFiles | ShowStorageStats | CleanupStorage

  /** The commands of this file in the order the comprehensive registry registers them. */
  const Registered: seq<Kind> := [
    StartRecording, StopRecording, PauseRecording, ResumeRecording,
    ListSessions, CompressFiles, ShowStorageStats, CleanupStorage]

  function Name(k: Kind): string
  {
    match k
    case StartRecording => "start_recording"
    case StopRecording => "stop_recording"
    case PauseRecording => "pause_recording"
    case ResumeRecording => "resume_recording"
    case ListSessions => "list_sessions"
    case CompressFiles => "compress_files"
    case ShowStorageStats => "show_storage_stats"
    case CleanupStorage => "cleanup_storage"
  }

  function Category(k: Kind): CommandCategory { Audio }

  function Patterns(k: Kind): seq<PatternType>
  {
    match k
    case StartRecording => Exacts(["start recording", "begin recording"]) + [ContainsText("start recording")]
    case StopRecording => Exacts(["stop recording", "end recording"]) + [ContainsText("stop recording")]
    case PauseRecording => Exacts(["pause recording", "pause"]) + [ContainsText("pause recording")]
    case ResumeRecording =>
      Exacts(["resume recording", "continue recording", "resume"]) + [ContainsText("resume recording")]
    case ListSessions =>
      Exacts(["list sessions", "show sessions", "list recordings"]) + [ContainsText("list sessions")]
    case CompressFiles => Exacts(["compress files", "compress audio"]) + [ContainsText("compress files")]
    case ShowStorageStats =>
      Exacts(["show storage stats", "storage statistics", "show stats"]) + [ContainsText("storage stats")]
    case CleanupStorage =>
      Exacts(["cleanup storage", "clean up files", "cleanup old files"]) + [ContainsText("cleanup storage")]
  }

  const Sessions: seq<string> := [
    "Meeting Notes - 2025-01-15 (5.2 MB, 12:34)",
    "Interview Recording - 2025-01-14 (8.7 MB, 23:45)",
    "Lecture Notes - 2025-01-13 (15.3 MB, 45:12)"]

  const StorageStatsText: string :=
    "\U{1F4CA} Storage Statistics:\n"
    + "Total Sessions: 24\n"
    + "Total Size: 8.7 GB\n"
    + "Total Duration: 12.5 hours\n"
    + "Compression Ratio: 62%\n"
    + "Oldest Session: 2024-12-01\n"
    + "Available Space: 15.3 GB"

  /** The session listing: the count of sessions in the heading, and the joined list as data. */
  function SessionsListed(): (r: CommandResult)
    ensures r.success && r.data == Some(Text(Join(Sessions, "\n")))
    ensures r.message == "\U{1F4C1} Found " + NatToString(|Sessions|) + " recording sessions:\n" + Join(Sessions, "\n")
  {
    var list := Join(Sessions, "\n");
    SuccessWithData("\U{1F4C1} Found " + NatToString(|Sessions|) + " recording sessions:\n" + list, Text(list))
  }

  /** Runs a recording command: it always succeeds, carries a text payload and never writes the context. */
  function Execute(k: Kind, params: CommandParams, ctx: SystemContext): (o: Outcome)
    ensures o.ctx == ctx
    ensures o.result.Ok? && o.result.value.success && o.result.value.data.Some?
  {
    var r := match k
      case StartRecording =>
        SuccessWithData("\U{1F399}\U{FE0F}  Started recording session", Text("recording_started"))
      case StopRecording =>
        SuccessWithData("\U{23F9}\U{FE0F}  Recording stopped and saved", Text("recording_stopped"))
      case PauseRecording => SuccessWithData("\U{23F8}\U{FE0F}  Recording paused", Text("recording_paused"))
      case ResumeRecording => SuccessWithData("\U{25B6}\U{FE0F}  Recording resumed", Text("recording_resumed"))
      case ListSessions => SessionsListed()
      case CompressFiles =>
        SuccessWithData("\U{1F5DC}\U{FE0F}  Compressing audio files... Saved 45% storage space (3.2 GB \U{2192} 1.8 GB)",
                        Text("compression_complete"))
      case ShowStorageStats => SuccessWithData(StorageStatsText, Text("storage_stats"))
      case CleanupStorage =>
        SuccessWithData("\U{1F9F9} Storage cleanup complete. Removed 8 old files, freed 2.1 GB", Text("cleanup_complete"));
    Done(r, ctx)
  }

  /** The storage report is the one the source's test looks for. */
  lemma StorageStatsReported(params: CommandParams, ctx: SystemContext)
    ensures var o := Execute(ShowStorageStats, params, ctx);
      o.result.Ok? && Contains(o.result.value.message, "Storage Statistics")
  {
    var head := "\U{1F4CA} Storage Statistics:\n";
    assert StartsWith(StorageStatsText, head);
    ContainsPrefix(StorageStatsText, head);
    assert OccursAt(head, "Storage Statistics", 2);
    ContainsWitness(head, "Storage Statistics", 2);
    ContainsTrans(StorageStatsText, head, "Storage Statistics");
  }

  lemma NamesDistinct()
    ensures |Registered| == 8
    ensures forall i, j :: 0 <= i < j < |Registered| ==> Name(Registered[i]) != Name(Registered[j])
  {
  }
}
