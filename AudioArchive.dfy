/**
 * The audio archive: recording sessions and their metadata, a session
 * manager that keeps every known session by id together with the order in
 * which they were started, a compressor that sizes encoded audio and keeps
 * running totals, and the archive service that drives a recorder and a
 * storage backend through start, stop, pause and resume.
 *
 * The recorder and the storage backend are pluggable objects in the source
 * (its only recorder is a test double); what they answer is a parameter of
 * each service method here, and the file-based storage backend is modelled
 * on its own in module AudioStorage. Timestamps are milliseconds since the
 * epoch, durations milliseconds, identifiers naturals chosen by the caller,
 * audio samples reals, and encoded audio is represented by its byte count.
 */
module AudioArchive {
  import opened Common

  // ---------------------------------------------------------------------
  // Data model
  // ---------------------------------------------------------------------

  type SessionId = nat

  datatype AudioFormat = WAV | FLAC | Opus | MP3

  datatype AudioFormatInfo = AudioFormatInfo(sample_rate: nat, channels: nat, bit_depth: nat, format: AudioFormat)

  /** `CompressionLevel`; `None` is `NoCompression` here. */
  datatype CompressionLevel = NoCompression | LowCompression | MediumCompression | HighCompression | MaximumCompression

  /** `PrivacyMode`; `None` is `NoPrivacy` here. */
  datatype PrivacyMode = NoPrivacy | AutoDelete | Encrypted | EncryptedAutoDelete

  datatype AudioQuality = LowQuality | MediumQuality | HighQuality | StudioQuality

  /** `AudioArchiveConfig`; the storage size is in gigabytes, the retention in days. */
  datatype AudioArchiveConfig = AudioArchiveConfig(
    enable_recording: bool, storage_path: string, max_storage_gb: real, retention_days: nat,
    compression_level: CompressionLevel, privacy_mode: PrivacyMode, auto_save_interval: nat,
    audio_quality: AudioQuality)

  /** `AudioArchiveConfig::default`. */
  function DefaultArchiveConfig(): (c: AudioArchiveConfig)
    ensures c.enable_recording && c.storage_path == "./audio_archive" && c.max_storage_gb == 10.0
    ensures c.retention_days == 30 && c.compression_level == MediumCompression && c.privacy_mode == AutoDelete
    ensures c.auto_save_interval == 5 && c.audio_quality == HighQuality
  {
    AudioArchiveConfig(true, "./audio_archive", 10.0, 30, MediumCompression, AutoDelete, 5, HighQuality)
  }

  /** `RecordingSession`. */
  datatype RecordingSession = RecordingSession(
    id: SessionId, name: string, description: Option<string>, start_time: int, end_time: Option<int>,
    duration: nat, file_path: string, file_size: nat, format_info: AudioFormatInfo, tags: seq<string>,
    transcript_count: nat, metadata: map<string, string>)

  /** `SearchCriteria`: each present bound narrows the listing. */
  datatype SearchCriteria = SearchCriteria(
    name_pattern: Option<string>, tags: seq<string>, date_range: Option<(int, int)>,
    min_duration: Option<nat>, max_duration: Option<nat>, limit: Option<nat>)

  /** `SearchCriteria::default`: no bound, at most 50 sessions. */
  function DefaultSearchCriteria(): (c: SearchCriteria)
    ensures c.name_pattern.None? && c.tags == [] && c.date_range.None?
    ensures c.min_duration.None? && c.max_duration.None? && c.limit == Some(50)
  {
    SearchCriteria(None, [], None, None, None, Some(50))
  }

  datatype StorageStats = StorageStats(
    total_sessions: nat, total_size_bytes: nat, total_duration: nat, compression_ratio: real,
    oldest_session: Option<int>, newest_session: Option<int>)

  datatype CompressionResult = CompressionResult(
    files_compressed: nat, original_size: nat, compressed_size: nat, compression_ratio: real, time_taken: nat)

  datatype CleanupResult = CleanupResult(files_deleted: nat, space_freed: nat, sessions_removed: nat)

  /** `RetentionPolicy`: the age limit in days and the size cap in gigabytes. */
  datatype RetentionPolicy = RetentionPolicy(max_age_days: nat, max_total_size_gb: real, keep_recent_count: nat)

  /** `SessionManagerConfig`; the timeout is in milliseconds. */
  datatype SessionManagerConfig = SessionManagerConfig(
    max_concurrent_sessions: nat, auto_save_enabled: bool, session_timeout: nat)

  /** The compressor's running totals. */
  datatype CompressionStats = CompressionStats(
    total_files_compressed: nat, total_original_size: nat, total_compressed_size: nat,
    average_compression_ratio: real)

  datatype AudioError =
    | RecordingError(message: string)
    | StorageError(message: string)
    | CompressionError(message: string)
    | SessionNotFound(session: SessionId)
    | InvalidConfiguration(message: string)
    | IoError(message: string)
    | SerializationError(message: string)

  /** `RecordingStatus`. */
  datatype RecordingStatus = RecordingStatus(
    is_recording: bool, current_session: Option<RecordingSession>, duration: nat)

  /** `PathBuf::join` on a relative component. */
  function JoinPath(base: string, part: string): (r: string)
    ensures StartsWith(r, base) && EndsWith(r, part)
  {
    var r := base + "/" + part;
    assert r[..|base|] == base && r[|r| - |part|..] == part;
    r
  }

  /** The ratio of two byte counts; with a zero denominator it is 0 (the source divides floats). */
  function Ratio(num: nat, den: nat): (r: real)
    ensures den > 0 && num <= den ==> 0.0 <= r <= 1.0
    ensures den > 0 ==> r * den as real == num as real
  {
    if den == 0 then 0.0 else num as real / den as real
  }

  // ---------------------------------------------------------------------
  // Encoded sizes
  // ---------------------------------------------------------------------

  /**
   * The mock encoders' output size: the sample count scaled by the
   * format's ratio and truncated, but never less than one byte.
   */
  function MockSize(samples: nat, ratio: real): (n: nat)
    requires 0.0 <= ratio <= 1.0
    ensures n >= 1
    ensures n == 1 || (n as real <= samples as real * ratio < n as real + 1.0)
    ensures samples as real * ratio < 1.0 ==> n == 1
  {
    var t := (samples as real * ratio).Floor;
    if t < 1 then 1 else t
  }

  /** The bytes `compress_audio` produces for `samples` samples in `format`: 4 per sample for WAV. */
  function EncodedSize(format: AudioFormat, samples: nat): nat
  {
    match format
    case WAV => 4 * samples
    case FLAC => MockSize(samples, 0.6)
    case Opus => MockSize(samples, 0.3)
    case MP3 => MockSize(samples, 0.1)
  }

  /**
   * WAV output is exactly four bytes per sample; every other format yields
   * at least one byte and, for a non-empty input, no more than the raw
   * four bytes per sample.
   */
  lemma EncodedSizeBounds(format: AudioFormat, samples: nat)
    ensures format == WAV ==> EncodedSize(format, samples) == 4 * samples
    ensures format != WAV ==> EncodedSize(format, samples) >= 1
    ensures samples >= 1 ==> EncodedSize(format, samples) <= 4 * samples
  {
  }

  /** An empty input still costs a mock encoder one byte: its output is larger than the input. */
  lemma MockEncodersExpandEmptyInput(format: AudioFormat)
    requires format != WAV
    ensures EncodedSize(format, 0) == 1 > 4 * 0
  {
  }

  // ---------------------------------------------------------------------
  // Compressor
  // ---------------------------------------------------------------------

  /** The totals after one more file of `original` bytes compressed to `compressed` bytes. */
  function Recorded(stats: CompressionStats, original: nat, compressed: nat): (r: CompressionStats)
    ensures r.total_files_compressed == stats.total_files_compressed + 1
    ensures r.total_original_size == stats.total_original_size + original
    ensures r.total_compressed_size == stats.total_compressed_size + compressed
  {
    var o := stats.total_original_size + original;
    var c := stats.total_compressed_size + compressed;
    CompressionStats(stats.total_files_compressed + 1, o, c, Ratio(c, o))
  }

  /** The totals never grew past the originals. */
  predicate NeverExpanded(stats: CompressionStats)
  {
    stats.total_compressed_size <= stats.total_original_size
    && 0.0 <= stats.average_compression_ratio <= 1.0
  }

  /** Compressing a non-empty input keeps the totals from expanding, whatever the format. */
  lemma RecordedNeverExpands(stats: CompressionStats, format: AudioFormat, samples: nat)
    requires NeverExpanded(stats) && samples >= 1
    ensures NeverExpanded(Recorded(stats, 4 * samples, EncodedSize(format, samples)))
  {
    EncodedSizeBounds(format, samples);
  }

  /** With WAV every recorded file is as large as its input, so the average ratio is exactly 1. */
  lemma RecordedWavRatio(stats: CompressionStats, samples: nat)
    requires stats.total_compressed_size == stats.total_original_size
    requires stats.total_original_size + 4 * samples > 0
    ensures Recorded(stats, 4 * samples, EncodedSize(WAV, samples)).average_compression_ratio == 1.0
  {
  }

  /** `AudioCompressor`: the output format and the running totals. */
  class AudioCompressor {
    const level: CompressionLevel
    const format: AudioFormat
    var stats: CompressionStats

    constructor (level: CompressionLevel, format: AudioFormat)
      ensures this.level == level && this.format == format
      ensures stats == CompressionStats(0, 0, 0, 0.0)
    {
      this.level := level;
      this.format := format;
      stats := CompressionStats(0, 0, 0, 0.0);
    }

    /**
     * `compress_audio`: encode in the compressor's format (never fails)
     * and count the file with its raw size of four bytes per sample.
     */
    method CompressAudio(input: seq<real>) returns (r: Result<nat, AudioError>)
      modifies this
      ensures r == Ok(EncodedSize(format, |input|))
      ensures stats == Recorded(old(stats), 4 * |input|, r.value)
    {
      var compressed := EncodedSize(format, |input|);
      stats := Recorded(stats, 4 * |input|, compressed);
      r := Ok(compressed);
    }
  }

  // ---------------------------------------------------------------------
  // Session manager
  // ---------------------------------------------------------------------

  /** `RecordingSessionManager`: sessions by id and the ids in the order they were added. */
  class RecordingSessionManager {
    var sessions: map<SessionId, RecordingSession>
    var session_history: seq<SessionId>
    const config: SessionManagerConfig

    constructor (config: SessionManagerConfig)
      ensures sessions == map[] && session_history == [] && this.config == config
    {
      sessions := map[];
      session_history := [];
      this.config := config;
    }

    /** `add_session`: store the session under its id and append the id to the history. */
    method AddSession(session: RecordingSession) returns (r: Result<(), AudioError>)
      modifies this
      ensures r == Ok(())
      ensures sessions == old(sessions)[session.id := session]
      ensures session_history == old(session_history) + [session.id]
    {
      sessions := sessions[session.id := session];
      session_history := session_history + [session.id];
      r := Ok(());
    }

    /** `update_session`: replace the stored session; the history is untouched. */
    method UpdateSession(session: RecordingSession) returns (r: Result<(), AudioError>)
      modifies this
      ensures r == Ok(())
      ensures sessions == old(sessions)[session.id := session] && session_history == old(session_history)
    {
      sessions := sessions[session.id := session];
      r := Ok(());
    }

    /** `remove_session`: forget the session and every occurrence of its id in the history. */
    method RemoveSession(id: SessionId) returns (r: Result<(), AudioError>)
      modifies this
      ensures r == Ok(())
      ensures sessions == old(sessions) - {id} && session_history == DropAll(old(session_history), id)
    {
      sessions := sessions - {id};
      session_history := DropAll(session_history, id);
      r := Ok(());
    }

    /** `get_session`. */
    function GetSession(id: SessionId): (r: Option<RecordingSession>)
      reads this
      ensures r.Some? <==> id in sessions
      ensures r.Some? ==> r.value == sessions[id]
    {
      if id in sessions then Some(sessions[id]) else None
    }
  }

  /** Adding appends the id exactly once: its count in the history grows by one, others stay. */
  lemma AddedOnce(history: seq<SessionId>, id: SessionId)
    ensures Count(history + [id], id) == Count(history, id) + 1
    ensures forall other :: other != id ==> Count(history + [id], other) == Count(history, other)
  {
    CountAppend(history, [id], id);
    forall other | other != id ensures Count(history + [id], other) == Count(history, other) {
      CountAppend(history, [id], other);
    }
  }

  /** Removing drops every occurrence of the id and keeps every other id as often as before. */
  lemma RemovedEverywhere(history: seq<SessionId>, id: SessionId)
    ensures Count(DropAll(history, id), id) == 0 && id !in DropAll(history, id)
    ensures forall other :: other != id ==> Count(DropAll(history, id), other) == Count(history, other)
  {
    DropAllSpec(history, id);
  }

  /** Adding then removing a session leaves the history as it was, provided the id was not there. */
  lemma AddThenRemove(history: seq<SessionId>, id: SessionId)
    requires id !in history
    ensures DropAll(history + [id], id) == history
  {
    DropAllNotIn(history, id);
    DropAllAppend(history, [id], id);
    assert DropAll([id], id) == [] by { assert [id][1..] == []; }
    assert history + [] == history;
  }

  // ---------------------------------------------------------------------
  // Archive service
  // ---------------------------------------------------------------------

  /** The session `start_recording_session` creates: empty, unnamed-file `<storage>/<id>.wav`. */
  function NewRecording(config: AudioArchiveConfig, id: SessionId, name: string, description: Option<string>,
                        now: int, format_info: AudioFormatInfo): (s: RecordingSession)
    ensures s.id == id && s.name == name && s.description == description && s.start_time == now
    ensures s.end_time.None? && s.duration == 0 && s.file_size == 0 && s.tags == [] && s.transcript_count == 0
    ensures s.file_path == JoinPath(config.storage_path, NatToString(id) + ".wav") && EndsWith(s.file_path, ".wav")
  {
    var file := NatToString(id) + ".wav";
    assert file[|file| - 4..] == ".wav";
    var path := JoinPath(config.storage_path, file);
    assert path[|path| - 4..] == file[|file| - 4..];
    RecordingSession(id, name, description, now, None, 0, path, 0, format_info, [], 0, map[])
  }

  /** The session `stop_recording_session` returns: ended, timed, and sized at four bytes per sample. */
  function Stopped(s: RecordingSession, now: int, duration: nat, samples: nat): (r: RecordingSession)
    ensures r.end_time == Some(now) && r.duration == duration && r.file_size == 4 * samples
    ensures r == s.(end_time := r.end_time, duration := duration, file_size := r.file_size)
  {
    s.(end_time := Some(now), duration := duration, file_size := 4 * samples)
  }

  /** The session manager's configuration that the service creates. */
  function ServiceManagerConfig(): (c: SessionManagerConfig)
    ensures c.max_concurrent_sessions == 5 && c.auto_save_enabled && c.session_timeout == 3600000
  {
    SessionManagerConfig(5, true, 3600000)
  }

  /** The criteria `list_sessions` passes on: the given ones, else the defaults. */
  function ListCriteria(criteria: Option<SearchCriteria>): (c: SearchCriteria)
    ensures criteria.Some? ==> c == criteria.value
    ensures criteria.None? ==> c == DefaultSearchCriteria() && c.limit == Some(50)
  {
    if criteria.Some? then criteria.value else DefaultSearchCriteria()
  }

  /** The retention policy `cleanup_old_files` passes on: the configured limits, keeping ten recent. */
  function CleanupPolicy(config: AudioArchiveConfig): (p: RetentionPolicy)
    ensures p.max_age_days == config.retention_days && p.max_total_size_gb == config.max_storage_gb
    ensures p.keep_recent_count == 10
  {
    RetentionPolicy(config.retention_days, config.max_storage_gb, 10)
  }

  const NoActiveSession := "No active recording session"

  /**
   * `AudioArchiveService`. The recorder's and the storage backend's
   * answers are passed to each method by the caller.
   */
  class AudioArchiveService {
    const config: AudioArchiveConfig
    const compressor: AudioCompressor
    const session_manager: RecordingSessionManager
    var current_session: Option<RecordingSession>

    /** `new`: a FLAC compressor at the configured level, an empty manager, and no session. */
    constructor (config: AudioArchiveConfig)
      ensures this.config == config && current_session.None?
      ensures compressor.level == config.compression_level && compressor.format == FLAC
      ensures compressor.stats == CompressionStats(0, 0, 0, 0.0)
      ensures session_manager.sessions == map[] && session_manager.session_history == []
      ensures session_manager.config == ServiceManagerConfig()
      ensures fresh(compressor) && fresh(session_manager)
    {
      this.config := config;
      compressor := new AudioCompressor(config.compression_level, FLAC);
      session_manager := new RecordingSessionManager(ServiceManagerConfig());
      current_session := None;
    }

    /**
     * `start_recording_session`: refused while a session is active;
     * otherwise the recorder is started (`started` is its answer) and, if
     * it started, the new session is added to the manager and becomes the
     * current one.
     */
    method StartRecordingSession(name: string, description: Option<string>, session_id: SessionId, now: int,
                                 format_info: AudioFormatInfo, started: Result<(), AudioError>)
      returns (r: Result<SessionId, AudioError>)
      modifies this, session_manager
      ensures old(current_session).Some? ==>
        r == Err(RecordingError("A recording session is already active"))
        && current_session == old(current_session)
        && session_manager.sessions == old(session_manager.sessions)
        && session_manager.session_history == old(session_manager.session_history)
      ensures old(current_session).None? && started.Err? ==>
        r == Err(started.error) && current_session.None?
        && session_manager.sessions == old(session_manager.sessions)
        && session_manager.session_history == old(session_manager.session_history)
      ensures old(current_session).None? && started.Ok? ==>
        var s := NewRecording(config, session_id, name, description, now, format_info);
        r == Ok(session_id) && current_session == Some(s)
        && session_manager.sessions == old(session_manager.sessions)[session_id := s]
        && session_manager.session_history == old(session_manager.session_history) + [session_id]
    {
      if current_session.Some? {
        return Err(RecordingError("A recording session is already active"));
      }
      var session := NewRecording(config, session_id, name, description, now, format_info);
      if started.Err? {
        return Err(started.error);
      }
      var _ := session_manager.AddSession(session);
      current_session := Some(session);
      r := Ok(session_id);
    }

    /**
     * `stop_recording_session`: fails with no session. Otherwise the
     * session is taken first (so it is gone even when a later step fails),
     * the recorder is stopped (`stopped` is the audio it returns), the
     * audio is handed to storage (`stored` is its answer), and the ended
     * session, sized at four bytes per sample, replaces the manager's copy.
     */
    method StopRecordingSession(now: int, stopped: Result<seq<real>, AudioError>, duration: nat,
                                stored: Result<SessionId, AudioError>)
      returns (r: Result<RecordingSession, AudioError>)
      modifies this, session_manager
      ensures session_manager.session_history == old(session_manager.session_history)
      ensures old(current_session).None? ==>
        r == Err(RecordingError(NoActiveSession)) && current_session.None?
        && session_manager.sessions == old(session_manager.sessions)
      ensures old(current_session).Some? ==> current_session.None?
      ensures old(current_session).Some? && (stopped.Err? || stored.Err?) ==>
        r.Err? && r.error == (if stopped.Err? then stopped.error else stored.error)
        && session_manager.sessions == old(session_manager.sessions)
      ensures old(current_session).Some? && stopped.Ok? && stored.Ok? ==>
        var s := Stopped(old(current_session).value, now, duration, |stopped.value|);
        r == Ok(s) && session_manager.sessions == old(session_manager.sessions)[s.id := s]
    {
      if current_session.None? {
        return Err(RecordingError(NoActiveSession));
      }
      var session := current_session.value;
      current_session := None;
      if stopped.Err? {
        return Err(stopped.error);
      }
      var audio := stopped.value;
      if stored.Err? {
        return Err(stored.error);
      }
      session := Stopped(session, now, duration, |audio|);
      var _ := session_manager.UpdateSession(session);
      r := Ok(session);
    }

    /** `pause_recording`: fails with no session, else the recorder's answer `paused`. */
    method PauseRecording(paused: Result<(), AudioError>) returns (r: Result<(), AudioError>)
      ensures current_session.None? ==> r == Err(RecordingError(NoActiveSession))
      ensures current_session.Some? ==> r == paused
    {
      if current_session.None? {
        return Err(RecordingError(NoActiveSession));
      }
      r := paused;
    }

    /** `resume_recording`: fails with no session, else the recorder's answer `resumed`. */
    method ResumeRecording(resumed: Result<(), AudioError>) returns (r: Result<(), AudioError>)
      ensures current_session.None? ==> r == Err(RecordingError(NoActiveSession))
      ensures current_session.Some? ==> r == resumed
    {
      if current_session.None? {
        return Err(RecordingError(NoActiveSession));
      }
      r := resumed;
    }

    /**
     * `get_recording_status`: without a session, not recording and no
     * duration; with one, the recorder's flag and duration.
     */
    function GetRecordingStatus(recording: bool, duration: nat): (st: RecordingStatus)
      reads this
      ensures current_session.None? ==> st == RecordingStatus(false, None, 0)
      ensures current_session.Some? ==> st == RecordingStatus(recording, current_session, duration)
    {
      if current_session.Some? then RecordingStatus(recording, current_session, duration)
      else RecordingStatus(false, None, 0)
    }

    /** `delete_session`: the storage backend deletes first (`deleted`); only then is the manager told. */
    method DeleteSession(id: SessionId, deleted: Result<(), AudioError>) returns (r: Result<(), AudioError>)
      modifies session_manager
      ensures r == deleted
      ensures deleted.Err? ==> session_manager.sessions == old(session_manager.sessions)
                               && session_manager.session_history == old(session_manager.session_history)
      ensures deleted.Ok? ==> session_manager.sessions == old(session_manager.sessions) - {id}
                              && session_manager.session_history == DropAll(old(session_manager.session_history), id)
    {
      if deleted.Err? {
        return deleted;
      }
      var _ := session_manager.RemoveSession(id);
      r := deleted;
    }
  }

  // ---------------------------------------------------------------------
  // Scenario of the source's lifecycle test
  // ---------------------------------------------------------------------

  /**
   * Start "Test Session" with a recorder that starts, check the status,
   * then stop with a thousand samples stored: the returned session keeps
   * its id and name and is sized at 4000 bytes.
   */
  method RecordingLifecycle(id: SessionId, now: int, format_info: AudioFormatInfo)
    returns (started: Result<SessionId, AudioError>, status: RecordingStatus,
             stopped: Result<RecordingSession, AudioError>)
    ensures started == Ok(id) && status.is_recording && status.current_session.Some?
    ensures stopped.Ok? && stopped.value.id == id && stopped.value.name == "Test Session"
    ensures stopped.value.file_size == 4000 && stopped.value.end_time == Some(now + 10000)
  {
    var service := new AudioArchiveService(DefaultArchiveConfig());
    started := service.StartRecordingSession("Test Session", Some("Test description"), id, now, format_info, Ok(()));
    status := service.GetRecordingStatus(true, 0);
    var audio := seq(1000, _ => 0.0);
    stopped := service.StopRecordingSession(now + 10000, Ok(audio), 10000, Ok(id));
  }

  /** A second start while one session is active is refused and leaves the first one current. */
  method StartTwice(a: SessionId, b: SessionId, now: int, format_info: AudioFormatInfo)
    returns (second: Result<SessionId, AudioError>, current: Option<RecordingSession>)
    ensures second.Err? && current.Some? && current.value.id == a
  {
    var service := new AudioArchiveService(DefaultArchiveConfig());
    var _ := service.StartRecordingSession("First", None, a, now, format_info, Ok(()));
    second := service.StartRecordingSession("Second", None, b, now + 1, format_info, Ok(()));
    current := service.current_session;
  }
}
