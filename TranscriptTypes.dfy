/**
 * The shared vocabulary of the transcript services: transcript entries and
 * their metadata, the outcome of a duplicate check, merged transcripts,
 * search criteria with their defaults, the per-service configurations, the
 * daily and accuracy records of the analytics, and the errors.
 *
 * Timestamps are whole seconds since the Unix epoch (UTC); the calendar
 * date of a timestamp is its day number and its hour the hour of that day.
 */
module TranscriptTypes {
  import opened Common

  type TranscriptId = nat
  type SessionId = nat
  type AudioFileId = nat

  /** The UTC day number of a timestamp (`date_naive`). */
  function DateOf(t: int): int
  {
    t / 86400
  }

  /** The UTC hour of a timestamp (`hour`). */
  function HourOf(t: int): (h: nat)
    ensures h < 24
  {
    (t % 86400) / 3600
  }

  /** Two timestamps on the same day have the same date. */
  lemma {:induction false} DateOfDay(d: int, s: int)
    requires 0 <= s < 86400
    ensures DateOf(d * 86400 + s) == d && HourOf(d * 86400 + s) == s / 3600
  {
    assert (d * 86400 + s) / 86400 == d by {
      assert d * 86400 + s == d * 86400 + s;
    }
  }

  /** `TranscriptSource`. */
  datatype TranscriptSource =
    | LiveAudio
    | RecordedAudio(file_path: string)
    | Imported(source: string)
    | ManualEntry

  /** The part of `TranscriptMetadata` the services read or write. */
  datatype TranscriptMetadata = TranscriptMetadata(
    source: TranscriptSource, start_time: int, end_time: int, warnings: seq<string>, quality_score: real)

  /** `TranscriptEntry`. */
  datatype TranscriptEntry = TranscriptEntry(
    id: TranscriptId, timestamp: int, text: string, confidence: real, model: string, duration_ms: nat,
    audio_file_id: Option<AudioFileId>, session_id: Option<SessionId>, hash: nat, tags: seq<string>,
    metadata: TranscriptMetadata, language: Option<string>, speaker: Option<string>)

  /** `DuplicationResult`. */
  datatype DuplicationResult =
    | Unique
    | ExactDuplicate(existing: TranscriptId)
    | SimilarTranscript(id: TranscriptId, similarity: real)

  /** `MergeStrategy`. */
  datatype MergeStrategy = HighestConfidenceMerge | TextCombination | LongestMerge | CustomMerge(name: string)

  /** `MergedTranscript`. */
  datatype MergedTranscript = MergedTranscript(
    primary_id: TranscriptId, merged_text: string, combined_confidence: real, source_ids: seq<TranscriptId>,
    merge_strategy: MergeStrategy)

  /** `SearchType`; the regular-expression variant carries its pattern uninterpreted. */
  datatype SearchType = FullText | ExactPhrase | RegexSearch(pattern: string) | Fuzzy(threshold: real) | Tags

  /** `SortOrder`. */
  datatype SortOrder = Newest | Oldest | HighestConfidence | Relevance | Longest

  /** `SearchCriteria`. */
  datatype SearchCriteria = SearchCriteria(
    query: Option<string>, search_type: SearchType, date_range: Option<(int, int)>,
    confidence_range: Option<(real, real)>, tags: seq<string>, session_id: Option<SessionId>,
    language: Option<string>, limit: Option<nat>, sort_order: SortOrder)

  /** `SearchCriteria::default`. */
  function DefaultSearchCriteria(): (c: SearchCriteria)
    ensures c.search_type == FullText && c.limit == Some(50) && c.sort_order == Newest
    ensures c.query.None? && c.date_range.None? && c.confidence_range.None? && c.tags == []
    ensures c.session_id.None? && c.language.None?
  {
    SearchCriteria(None, FullText, None, None, [], None, None, Some(50), Newest)
  }

  /** `MatchType`. */
  datatype MatchType = ExactMatch | FuzzyMatch(similarity: real) | TagMatch | MetadataMatch

  /** `TranscriptMatch` without the display snippets. */
  datatype TranscriptMatch = TranscriptMatch(transcript: TranscriptEntry, relevance: real, match_type: MatchType)

  /** `HashAlgorithm`. */
  datatype HashAlgorithm = Simple | ContentBased | Semantic

  /** `DeduplicationConfig`. */
  datatype DeduplicationConfig = DeduplicationConfig(
    similarity_threshold: real, recent_window_minutes: nat, enable_fuzzy_matching: bool,
    hash_algorithm: HashAlgorithm)

  /** `IndexConfig`. */
  datatype IndexConfig = IndexConfig(
    enable_word_index: bool, enable_phrase_index: bool, max_phrase_length: nat, stop_words: set<string>,
    min_word_length: nat)

  /** `AnalyticsConfig`. */
  datatype AnalyticsConfig = AnalyticsConfig(
    enable_word_frequency: bool, enable_daily_stats: bool, enable_accuracy_tracking: bool, retention_days: nat)

  /** `TranscriptionLogConfig` without its backup section; the auto-save interval is in seconds. */
  datatype TranscriptionLogConfig = TranscriptionLogConfig(
    storage_path: string, max_cache_size: nat, auto_save_interval: nat, enable_deduplication: bool,
    enable_analytics: bool)

  /** `TranscriptionLogConfig::default`. */
  function DefaultLogConfig(): (c: TranscriptionLogConfig)
    ensures c.max_cache_size == 1000 && c.enable_deduplication && c.enable_analytics
  {
    TranscriptionLogConfig("./transcription_logs", 1000, 300, true, true)
  }

  /** `DailyStats`; the processing time is in milliseconds. */
  datatype DailyStats = DailyStats(
    date: int, total_transcripts: nat, total_words: nat, average_confidence: real,
    total_processing_time: nat, unique_sessions: nat, peak_hour: nat)

  /** `AccuracyPoint`. */
  datatype AccuracyPoint = AccuracyPoint(timestamp: int, accuracy: real, sample_size: nat, model: string)

  /** `TranscriptError`; the wrapped I/O, serialisation and regex errors carry their message. */
  datatype TranscriptError =
    | StorageError(message: string)
    | DeduplicationError(message: string)
    | SearchError(message: string)
    | AnalyticsError(message: string)
    | TranscriptNotFound(id: TranscriptId)
    | InvalidConfiguration(message: string)
    | IoError(message: string)
    | SerializationError(message: string)
    | RegexError(message: string)
}
