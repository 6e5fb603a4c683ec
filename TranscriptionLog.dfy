/**
 * The transcription log service: it builds the entry for a new
 * transcription, consults the deduplicator, stores the entry, feeds the
 * indexer and the analytics, and keeps a bounded cache of the most recent
 * entries.
 *
 * The storage back end is a map from id to entry with insert and lookup, as
 * the in-memory storage the service is exercised with behaves. The clock and
 * the id generator are parameters, and the standard hasher is the same
 * uninterpreted function the deduplicator uses.
 */
module TranscriptionLog {
  import opened Common
  import opened TranscriptTypes
  import opened Deduplication
  import TranscriptSearch
  import TranscriptionAnalytics

  // ---------------------------------------------------------------------
  // Pure parts
  // ---------------------------------------------------------------------

  /** `calculate_hash`: the standard hasher applied to the lowercased, trimmed text. */
  function CalculateHash(hasher: HashKey -> nat, text: string): nat
  {
    hasher(TextKey(Trim(ToLower(text))))
  }

  /** Texts that agree once lowercased and trimmed hash alike, whatever the hasher. */
  lemma HashIgnoresCaseAndOuterSpace(hasher: HashKey -> nat, a: string, b: string)
    requires Trim(ToLower(a)) == Trim(ToLower(b))
    ensures CalculateHash(hasher, a) == CalculateHash(hasher, b)
  {
  }

  /** A leading space does not change the hash of a word. */
  lemma HashOfSpacedWord(hasher: HashKey -> nat, w: string)
    requires IsWord(w)
    ensures CalculateHash(hasher, " " + w) == CalculateHash(hasher, w)
  {
    LowerKeepsWord(w);
    var l := ToLower(w);
    ToLowerAppend(" ", w);
    assert ToLower(" ") == " ";
    assert ToLower(" " + w) == " " + l;
    TrimSpacedWord(l);
    TrimWord(l);
  }

  /** Lowercasing first does not change the hash. */
  lemma HashOfLowered(hasher: HashKey -> nat, text: string)
    ensures CalculateHash(hasher, ToLower(text)) == CalculateHash(hasher, text)
  {
    ToLowerNoUpper(text);
    ToLowerIdentity(ToLower(text));
  }

  /** A word stays a word once lowercased. */
  lemma LowerKeepsWord(w: string)
    requires IsWord(w)
    ensures IsWord(ToLower(w))
  {
    assert forall i :: 0 <= i < |w| ==> ToLower(w)[i] == LowerChar(w[i]);
  }

  /** Lowercasing works character by character, so it distributes over concatenation. */
  lemma ToLowerAppend(a: string, b: string)
    ensures ToLower(a + b) == ToLower(a) + ToLower(b)
  {
    assert forall i :: 0 <= i < |a + b| ==> ToLower(a + b)[i] == (ToLower(a) + ToLower(b))[i];
  }

  /**
   * `FuzzyMatcher::is_similar`: similar exactly when the similarity reaches
   * the threshold, so a lower threshold accepts every pair a higher one does;
   * a threshold of 0 accepts every pair and one above 1 none, since every
   * similarity lies in [0, 1].
   */
  lemma IsSimilarThreshold(m: Matcher, a: string, b: string, lower: real, higher: real)
    requires lower <= higher
    ensures IsSimilar(m, a, b, higher) <==> Similarity(m, a, b) >= higher
    ensures IsSimilar(m, a, b, higher) ==> IsSimilar(m, a, b, lower)
    ensures IsSimilar(m, a, b, 0.0) && !IsSimilar(m, a, b, 1.5)
  {
    SimilarityBounds(m, a, b);
  }

  /** Every matcher's similarity lies in [0, 1]. */
  lemma SimilarityBounds(m: Matcher, a: string, b: string)
    ensures 0.0 <= Similarity(m, a, b) <= 1.0
  {
    match m
    case LevenshteinMatcher => LevenshteinSimilarityBounds(a, b);
    case JaccardMatcher => JaccardBounds(a, b);
    case CombinedMatcher =>
  }

  /** `default_stop_words`: the stop words the service's indexer skips. */
  function DefaultStopWords(): (r: set<string>)
    ensures "the" in r && "a" in r && "part" in r
  {
    {"a", "an", "and", "are", "as", "at", "be", "by", "for", "from",
     "has", "he", "in", "is", "it", "its", "of", "on", "that", "the",
     "to", "was", "will", "with", "the", "this", "but", "they", "have",
     "had", "what", "said", "each", "which", "she", "do", "how", "their",
     "if", "up", "out", "many", "then", "them", "these", "so", "some",
     "her", "would", "make", "like", "into", "him", "time", "two", "more",
     "go", "no", "way", "could", "my", "than", "first", "been", "call",
     "who", "oil", "sit", "now", "find", "down", "day", "did", "get",
     "come", "made", "may", "part"}
  }

  /** The deduplicator configuration the service builds. */
  function ServiceDedupConfig(): (c: DeduplicationConfig)
    ensures c.similarity_threshold == 0.85 && c.recent_window_minutes == 10 && c.enable_fuzzy_matching
    ensures c.hash_algorithm == ContentBased
  {
    DeduplicationConfig(0.85, 10, true, ContentBased)
  }

  /** The indexer configuration the service builds. */
  function ServiceIndexConfig(): (c: IndexConfig)
    ensures c.enable_word_index && c.enable_phrase_index && c.max_phrase_length == 5 && c.min_word_length == 2
    ensures c.stop_words == DefaultStopWords()
  {
    IndexConfig(true, true, 5, DefaultStopWords(), 2)
  }

  /** The analytics configuration the service builds. */
  function ServiceAnalyticsConfig(): (c: AnalyticsConfig)
    ensures c.enable_word_frequency && c.enable_daily_stats && c.enable_accuracy_tracking
    ensures c.retention_days == 365
  {
    AnalyticsConfig(true, true, true, 365)
  }

  /**
   * The entry `log_transcription` builds: the given text, confidence, model
   * and duration, timestamped now, no audio file, session or tags, a live
   * audio source whose quality score is the confidence, no language and no
   * speaker, and the hash of the text.
   */
  function NewEntry(hasher: HashKey -> nat, id: TranscriptId, now: int, text: string, confidence: real,
                    model: string, duration_ms: nat): (e: TranscriptEntry)
    ensures e.id == id && e.timestamp == now && e.text == text && e.confidence == confidence
    ensures e.model == model && e.duration_ms == duration_ms
    ensures e.audio_file_id.None? && e.session_id.None? && e.tags == []
    ensures e.metadata.source == LiveAudio && e.metadata.quality_score == confidence
    ensures e.metadata.start_time == now && e.metadata.end_time == now && e.metadata.warnings == []
    ensures e.language.None? && e.speaker.None?
    ensures e.hash == CalculateHash(hasher, text)
  {
    TranscriptEntry(id, now, text, confidence, model, duration_ms, None, None, CalculateHash(hasher, text), [],
                    TranscriptMetadata(LiveAudio, now, now, [], confidence), None, None)
  }

  /** The verdict the service acts on: the deduplicator's when deduplication is on, otherwise Unique. */
  function Verdict(enabled: bool, config: DeduplicationConfig, hasher: HashKey -> nat, cache: map<nat, TranscriptId>,
                   recent: seq<CachedTranscript>, text: string, now: int): (v: DuplicationResult)
    ensures !enabled ==> v == Unique
    ensures enabled ==> v == DuplicateOf(config, hasher, cache, recent, text, now)
  {
    if enabled then DuplicateOf(config, hasher, cache, recent, text, now) else Unique
  }

  /** `get_transcript` on the storage, with a missing id as `TranscriptNotFound`. */
  function Lookup(storage: map<TranscriptId, TranscriptEntry>, id: TranscriptId): (r: Result<TranscriptEntry, TranscriptError>)
    ensures r.Ok? <==> id in storage
    ensures r.Ok? ==> r.value == storage[id]
    ensures r.Err? ==> r.error == TranscriptNotFound(id)
  {
    if id in storage then Ok(storage[id]) else Err(TranscriptNotFound(id))
  }

  /**
   * The recent cache evicts first in, first out: after a push onto a cache
   * within its bound, it holds the last `cap` entries of the old cache
   * followed by the new one, so the new entry is last whenever the bound
   * is positive.
   */
  lemma {:induction false} CacheIsFifo(cache: seq<TranscriptEntry>, e: TranscriptEntry, cap: nat)
    requires |cache| <= cap
    ensures PushBounded(cache, e, cap) == LastN(cache + [e], cap)
    ensures |PushBounded(cache, e, cap)| == (if |cache| < cap then |cache| + 1 else cap)
    ensures cap > 0 ==> PushBounded(cache, e, cap)[|PushBounded(cache, e, cap)| - 1] == e
  {
    var r := PushBounded(cache, e, cap);
    if |cache| < cap {
      assert r == cache + [e];
    } else {
      assert r == (cache + [e])[1..];
      assert |cache + [e]| - cap == 1;
    }
  }

  // ---------------------------------------------------------------------
  // The service
  // ---------------------------------------------------------------------

  class TranscriptionLogService {
    const config: TranscriptionLogConfig
    /** The deduplicator; its hasher is the standard hasher, which the service uses too. */
    const deduplicator: TranscriptDeduplicator
    const indexer: TranscriptSearch.TranscriptIndexer
    const analytics: TranscriptionAnalytics.TranscriptAnalytics
    /** The storage back end: stored entries by id. */
    var storage: map<TranscriptId, TranscriptEntry>
    var recent_cache: seq<TranscriptEntry>

    /** The parts are valid and the recent cache is within its bound. */
    predicate Valid()
      reads this, deduplicator, indexer, analytics
    {
      deduplicator.Valid() && indexer.Valid() && analytics.Valid()
      && |recent_cache| <= config.max_cache_size
    }

    /**
     * `new`: a deduplicator, an indexer and an analytics engine with the
     * service's fixed configurations, the given storage, and an empty cache.
     */
    constructor (config: TranscriptionLogConfig, hasher: HashKey -> nat, storage: map<TranscriptId, TranscriptEntry>)
      ensures Valid()
      ensures this.config == config && this.storage == storage && recent_cache == []
      ensures deduplicator.config == ServiceDedupConfig() && deduplicator.hasher == hasher
      ensures deduplicator.hash_cache == map[] && deduplicator.recent_transcripts == []
      ensures indexer.config == ServiceIndexConfig() && indexer.transcript_storage == map[]
      ensures analytics.config == ServiceAnalyticsConfig()
      ensures analytics.State() == TranscriptionAnalytics.EmptyState()
      ensures fresh(deduplicator) && fresh(indexer) && fresh(analytics)
    {
      this.config := config;
      deduplicator := new TranscriptDeduplicator(ServiceDedupConfig(), hasher);
      indexer := new TranscriptSearch.TranscriptIndexer(ServiceIndexConfig());
      analytics := new TranscriptionAnalytics.TranscriptAnalytics(ServiceAnalyticsConfig());
      this.storage := storage;
      recent_cache := [];
    }

    /** The verdict that `log_transcription` acts on in the current state. */
    function VerdictFor(text: string, now: int): DuplicationResult
      reads deduplicator
    {
      Verdict(config.enable_deduplication, deduplicator.config, deduplicator.hasher, deduplicator.hash_cache,
              deduplicator.recent_transcripts, text, now)
    }

    /**
     * `log_transcription`. With deduplication on, an exact duplicate returns
     * the stored entry of the existing id (or `TranscriptNotFound`) and
     * nothing is stored, indexed or cached. Otherwise, similar or unique,
     * the new entry is stored; with analytics on it is indexed and counted;
     * it is pushed onto the recent cache, evicting the oldest entry past the
     * bound; and it is returned. The deduplicator's caches are never fed.
     */
    method LogTranscription(text: string, confidence: real, model: string, duration_ms: nat,
                            id: TranscriptId, now: int)
      returns (r: Result<TranscriptEntry, TranscriptError>)
      requires Valid()
      modifies this, deduplicator, indexer, analytics
      ensures Valid()
      ensures deduplicator.hash_cache == old(deduplicator.hash_cache)
      ensures deduplicator.recent_transcripts == old(deduplicator.recent_transcripts)
      ensures
        var v := old(VerdictFor(text, now));
        deduplicator.stats == if config.enable_deduplication then Counted(old(deduplicator.stats), v)
                              else old(deduplicator.stats)
      ensures
        var v := old(VerdictFor(text, now));
        v.ExactDuplicate? ==>
          r == Lookup(old(storage), v.existing) && storage == old(storage) && recent_cache == old(recent_cache)
          && unchanged(indexer) && unchanged(analytics)
      ensures
        var v := old(VerdictFor(text, now));
        var e := NewEntry(deduplicator.hasher, id, now, text, confidence, model, duration_ms);
        !v.ExactDuplicate? ==>
          r == Ok(e) && storage == old(storage)[id := e]
          && recent_cache == PushBounded(old(recent_cache), e, config.max_cache_size)
      ensures
        var v := old(VerdictFor(text, now));
        var e := NewEntry(deduplicator.hasher, id, now, text, confidence, model, duration_ms);
        !v.ExactDuplicate? && config.enable_analytics ==>
          indexer.transcript_storage == old(indexer.transcript_storage)[id := e]
          && indexer.total_documents == old(indexer.total_documents) + 1
          && analytics.State() == TranscriptionAnalytics.Step(analytics.config, old(analytics.State()), e, now)
      ensures
        !config.enable_analytics ==> unchanged(indexer) && unchanged(analytics)
    {
      var entry := NewEntry(deduplicator.hasher, id, now, text, confidence, model, duration_ms);
      if config.enable_deduplication {
        var verdict := deduplicator.IsDuplicate(text, now);
        if verdict.ExactDuplicate? {
          r := Lookup(storage, verdict.existing);
          return;
        }
      }
      Record(entry, now);
      r := Ok(entry);
    }

    /** The storing half of `log_transcription`: store, index and count when analytics is on, cache. */
    method Record(entry: TranscriptEntry, now: int)
      requires Valid()
      modifies this, indexer, analytics
      ensures Valid()
      ensures storage == old(storage)[entry.id := entry]
      ensures recent_cache == PushBounded(old(recent_cache), entry, config.max_cache_size)
      ensures config.enable_analytics ==>
        indexer.transcript_storage == old(indexer.transcript_storage)[entry.id := entry]
        && indexer.total_documents == old(indexer.total_documents) + 1
        && analytics.State() == TranscriptionAnalytics.Step(analytics.config, old(analytics.State()), entry, now)
      ensures !config.enable_analytics ==> unchanged(indexer) && unchanged(analytics)
    {
      storage := storage[entry.id := entry];
      if config.enable_analytics {
        Feed(entry, now);
      }
      recent_cache := PushBounded(recent_cache, entry, config.max_cache_size);
    }

    /** Index the entry and count it in the analytics. */
    method Feed(entry: TranscriptEntry, now: int)
      requires indexer.Valid() && analytics.Valid()
      modifies indexer, analytics
      ensures indexer.Valid() && analytics.Valid()
      ensures indexer.transcript_storage == old(indexer.transcript_storage)[entry.id := entry]
      ensures indexer.total_documents == old(indexer.total_documents) + 1
      ensures analytics.State() == TranscriptionAnalytics.Step(analytics.config, old(analytics.State()), entry, now)
    {
      indexer.IndexTranscript(entry);
      analytics.UpdateWithTranscript(entry, now);
    }
  }

  /**
   * Since the service never feeds its deduplicator, a service fresh from
   * `new` finds no duplicates: every verdict it acts on is Unique.
   */
  lemma FreshServiceFindsNoDuplicate(enabled: bool, hasher: HashKey -> nat, text: string, now: int)
    ensures Verdict(enabled, ServiceDedupConfig(), hasher, map[], [], text, now) == Unique
  {
    NothingCachedUnique(ServiceDedupConfig(), hasher, text, now);
  }

  /**
   * The logging test: with deduplication off, logging "Hello, this is a
   * test transcription." at 0.95 from "whisper-base" over 1500 ms succeeds
   * and returns an entry with that text, confidence and model, which is
   * stored and cached.
   */
  method LogScenario(hasher: HashKey -> nat, id: TranscriptId, now: int, text: string)
    returns (r: Result<TranscriptEntry, TranscriptError>)
    requires text == "Hello, this is a test transcription."
    ensures r.Ok? && r.value.text == "Hello, this is a test transcription."
    ensures r.value.confidence == 0.95 && r.value.model == "whisper-base" && r.value.duration_ms == 1500
    ensures r.value.tags == [] && r.value.metadata.source == LiveAudio
  {
    var config := TranscriptionLogConfig("./transcription_logs", 1000, 300, false, true);
    var service := new TranscriptionLogService(config, hasher, map[]);
    r := service.LogTranscription(text, 0.95, "whisper-base", 1500, id, now);
    assert service.recent_cache == [r.value];
  }

  /**
   * With the default configuration (deduplication on), logging the same
   * text twice stores it twice: the deduplicator is consulted but never
   * fed, so it reports both as Unique.
   */
  method DuplicateLoggedTwice(hasher: HashKey -> nat, first: TranscriptId, second: TranscriptId, now: int,
                              text: string)
    returns (r1: Result<TranscriptEntry, TranscriptError>, r2: Result<TranscriptEntry, TranscriptError>)
    requires first != second
    ensures r1.Ok? && r2.Ok? && r1.value.id == first && r2.value.id == second
    ensures r1.value.text == text && r2.value.text == text
  {
    var service := new TranscriptionLogService(DefaultLogConfig(), hasher, map[]);
    FreshServiceFindsNoDuplicate(true, hasher, text, now);
    r1 := service.LogTranscription(text, 0.9, "whisper-base", 1000, first, now);
    FreshServiceFindsNoDuplicate(true, hasher, text, now);
    r2 := service.LogTranscription(text, 0.9, "whisper-base", 1000, second, now);
    assert first in service.storage && second in service.storage;
  }
}
