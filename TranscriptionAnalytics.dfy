/**
 * The transcription analytics engine: word frequencies with their sessions
 * and per-day trend points, daily statistics keyed by date, the accuracy
 * trend pruned to the retention window, per-session and per-model
 * statistics, usage and quality patterns, performance histories, and the
 * queries and the report over them.
 *
 * Single-precision arithmetic is real arithmetic; durations are whole
 * milliseconds; the clock is a parameter.
 */
module TranscriptionAnalytics {
  import opened Common
  import opened TranscriptTypes
  import TranscriptSearch

  // ---------------------------------------------------------------------
  // Records
  // ---------------------------------------------------------------------

  /** `TrendPoint`: a word's count and mean confidence on one date. */
  datatype TrendPoint = TrendPoint(date: int, frequency: nat, confidence: real)

  /** `WordStats` without the contexts, which nothing fills. */
  datatype WordStats = WordStats(
    frequency: nat, first_seen: int, last_seen: int, average_confidence: real, sessions: seq<SessionId>,
    trend_data: seq<TrendPoint>)

  /** The parts of `SessionAnalytics` that are updated; the session duration is in milliseconds. */
  datatype SessionAnalytics = SessionAnalytics(
    session_id: SessionId, total_transcripts: nat, total_words: nat, average_confidence: real,
    session_duration_ms: nat, words_per_minute: real)

  /** The parts of `ModelPerformance` that are updated; the processing time is in milliseconds. */
  datatype ModelPerformance = ModelPerformance(
    model_name: string, total_transcripts: nat, average_confidence: real, average_processing_ms: nat,
    accuracy_history: seq<AccuracyPoint>)

  /** `QualityTrendPoint`. */
  datatype QualityTrendPoint = QualityTrendPoint(
    date: int, quality_score: real, sample_count: nat, confidence_range: (real, real))

  /** `LatencyPoint`, with the latency in milliseconds. */
  datatype LatencyPoint = LatencyPoint(timestamp: int, latency_ms: nat, transcript_length: nat, model_used: string)

  /** `ThroughputPoint`. */
  datatype ThroughputPoint = ThroughputPoint(timestamp: int, throughput: real, concurrent_sessions: nat)

  /** `AnalyticsReport` without the generation time and the formatted performance summary. */
  datatype AnalyticsReport = AnalyticsReport(
    total_transcripts: nat, total_words: nat, average_confidence: real, top_words: seq<(string, nat)>,
    quality_score: real, usage_insights: seq<string>, recommendations: seq<string>)

  // ---------------------------------------------------------------------
  // Words
  // ---------------------------------------------------------------------

  /** The tokens of at least two characters. */
  function LongTokens(tokens: seq<string>): (r: seq<string>)
    ensures forall w :: w in r <==> w in tokens && |w| >= 2
    ensures forall w :: Count(r, w) == if |w| >= 2 then Count(tokens, w) else 0
  {
    if |tokens| == 0 then []
    else
      var rest := LongTokens(tokens[1..]);
      assert forall w :: w in tokens <==> w == tokens[0] || w in tokens[1..] by {
        assert tokens == [tokens[0]] + tokens[1..];
      }
      if |tokens[0]| >= 2 then
        assert ([tokens[0]] + rest)[1..] == rest;
        [tokens[0]] + rest
      else rest
  }

  /** `tokenize_text`: lowercase, split on whitespace, keep alphanumerics, keep words of two characters or more. */
  function AnalyticsTokens(text: string): seq<string>
  {
    LongTokens(TranscriptSearch.Tokenize(text))
  }

  /** `count_words`: the number of whitespace-separated words. */
  function WordCount(text: string): nat
  {
    |SplitWhitespace(text)|
  }

  /** The running mean after one more sample, when `count` samples were averaged before. */
  function MeanAfter(average: real, count: nat, sample: real): real
  {
    (average * count as real + sample) / (count + 1) as real
  }

  /** The mean grows by one sample: times the new count it is the old sum plus the sample, and it stays in [0, 1]. */
  lemma MeanAfterSpec(average: real, count: nat, sample: real)
    ensures MeanAfter(average, count, sample) * (count + 1) as real == average * count as real + sample
    ensures 0.0 <= average <= 1.0 && 0.0 <= sample <= 1.0 ==> 0.0 <= MeanAfter(average, count, sample) <= 1.0
  {
    var k := count as real;
    var n := (count + 1) as real;
    var total := average * k + sample;
    var q := total / n;
    assert n == k + 1.0 && n > 0.0;
    assert q * n == total;
    if 0.0 <= average <= 1.0 && 0.0 <= sample <= 1.0 {
      assert 0.0 <= average * k by { NonNegativeProduct(average, k); }
      assert average * k <= k by {
        NonNegativeProduct(1.0 - average, k);
        assert (1.0 - average) * k == k - average * k;
      }
      SumInRange(average * k, k, sample);
      UnitQuotient(total, n);
    }
  }

  lemma SumInRange(part: real, k: real, sample: real)
    requires 0.0 <= part <= k && 0.0 <= sample <= 1.0
    ensures 0.0 <= part + sample <= k + 1.0
  {
  }

  lemma UnitQuotient(t: real, n: real)
    requires 0.0 <= t <= n && 0.0 < n
    ensures 0.0 <= t / n <= 1.0
  {
  }

  lemma NonNegativeProduct(a: real, b: real)
    requires 0.0 <= a && 0.0 <= b
    ensures 0.0 <= a * b
  {
  }

  /** The dates a trend has points for. */
  function Dates(trend: seq<TrendPoint>): set<int>
  {
    if |trend| == 0 then {} else {trend[0].date} + Dates(trend[1..])
  }

  /** The trend with one more occurrence on a date: the first point of that date is bumped, or a point is appended. */
  function BumpTrend(trend: seq<TrendPoint>, date: int, confidence: real): (r: seq<TrendPoint>)
    ensures |r| == |trend| || |r| == |trend| + 1
    ensures Dates(r) == Dates(trend) + {date}
  {
    if |trend| == 0 then [TrendPoint(date, 1, confidence)]
    else if trend[0].date == date then
      var r := [trend[0].(frequency := trend[0].frequency + 1, confidence := (trend[0].confidence + confidence) / 2.0)]
        + trend[1..];
      assert r[1..] == trend[1..];
      r
    else
      var r := [trend[0]] + BumpTrend(trend[1..], date, confidence);
      assert r[1..] == BumpTrend(trend[1..], date, confidence);
      r
  }

  /** No two points of a trend share a date. */
  predicate DistinctDates(trend: seq<TrendPoint>)
  {
    |trend| == 0 || (trend[0].date !in Dates(trend[1..]) && DistinctDates(trend[1..]))
  }

  /** The occurrences a trend records. */
  function TrendTotal(trend: seq<TrendPoint>): nat
  {
    if |trend| == 0 then 0 else trend[0].frequency + TrendTotal(trend[1..])
  }

  /** Bumping keeps the dates distinct and records exactly one more occurrence. */
  lemma {:induction false} BumpTrendSpec(trend: seq<TrendPoint>, date: int, confidence: real)
    requires DistinctDates(trend)
    ensures DistinctDates(BumpTrend(trend, date, confidence))
    ensures TrendTotal(BumpTrend(trend, date, confidence)) == TrendTotal(trend) + 1
    decreases |trend|
  {
    var r := BumpTrend(trend, date, confidence);
    if |trend| == 0 {
      assert r[1..] == [];
    } else if trend[0].date == date {
      assert r[1..] == trend[1..];
    } else {
      BumpTrendSpec(trend[1..], date, confidence);
      assert r[1..] == BumpTrend(trend[1..], date, confidence);
    }
  }

  /** A word's statistics before its first occurrence. */
  function FreshWordStats(t: TranscriptEntry): WordStats
  {
    WordStats(0, t.timestamp, t.timestamp, 0.0, [], [])
  }

  /** One occurrence of a word in a transcript, as `update_word_frequency` records it. */
  function Occurrence(w: WordStats, t: TranscriptEntry): (r: WordStats)
  {
    w.(frequency := w.frequency + 1, last_seen := t.timestamp,
       average_confidence := MeanAfter(w.average_confidence, w.frequency, t.confidence),
       sessions := if t.session_id.Some? && t.session_id.value !in w.sessions
                   then w.sessions + [t.session_id.value] else w.sessions,
       trend_data := BumpTrend(w.trend_data, DateOf(t.timestamp), t.confidence))
  }

  /** Sessions listed once each, dates once each, and the frequency is what the trend records. */
  predicate WordStatsValid(w: WordStats)
  {
    NoDuplicates(w.sessions) && DistinctDates(w.trend_data) && w.frequency == TrendTotal(w.trend_data)
  }

  /**
   * An occurrence counts once, lists the transcript's session at most once,
   * keeps one trend point per date, and keeps the frequency equal to the
   * trend's total.
   */
  lemma OccurrenceSpec(w: WordStats, t: TranscriptEntry)
    requires WordStatsValid(w)
    ensures WordStatsValid(Occurrence(w, t))
    ensures Occurrence(w, t).frequency == w.frequency + 1
    ensures forall s :: s in Occurrence(w, t).sessions <==> s in w.sessions || t.session_id == Some(s)
  {
    BumpTrendSpec(w.trend_data, DateOf(t.timestamp), t.confidence);
  }

  /** The word map after one occurrence of `word`. */
  function CountWord(words: map<string, WordStats>, word: string, t: TranscriptEntry): map<string, WordStats>
  {
    words[word := Occurrence(if word in words then words[word] else FreshWordStats(t), t)]
  }

  /** The word map after the occurrences of `tokens`, in order. */
  function CountWords(words: map<string, WordStats>, tokens: seq<string>, t: TranscriptEntry)
    : map<string, WordStats>
  {
    if |tokens| == 0 then words
    else CountWord(CountWords(words, tokens[..|tokens| - 1], t), tokens[|tokens| - 1], t)
  }

  /** How often a word has been counted. */
  function Frequency(words: map<string, WordStats>, w: string): nat
  {
    if w in words then words[w].frequency else 0
  }

  /** Every word's statistics are valid. */
  predicate WordsValid(words: map<string, WordStats>)
  {
    forall w :: w in words ==> WordStatsValid(words[w])
  }

  /** One occurrence adds one to the word's frequency, adds the word as a key and keeps the statistics valid. */
  lemma CountWordStep(words: map<string, WordStats>, word: string, t: TranscriptEntry)
    requires WordsValid(words)
    ensures WordsValid(CountWord(words, word, t))
    ensures CountWord(words, word, t).Keys == words.Keys + {word}
    ensures forall w :: Frequency(CountWord(words, word, t), w) == Frequency(words, w) + if w == word then 1 else 0
  {
    OccurrenceSpec(if word in words then words[word] else FreshWordStats(t), t);
  }

  /** Counting tokens keeps every word's statistics valid. */
  lemma {:induction false} CountWordsValid(words: map<string, WordStats>, tokens: seq<string>, t: TranscriptEntry)
    requires WordsValid(words)
    ensures WordsValid(CountWords(words, tokens, t))
    decreases |tokens|
  {
    if |tokens| > 0 {
      var init := tokens[..|tokens| - 1];
      CountWordsValid(words, init, t);
      CountWordStep(CountWords(words, init, t), tokens[|tokens| - 1], t);
    }
  }

  /** A word is a key after counting exactly when it was one before or is among the tokens. */
  lemma {:induction false} CountWordsKey(words: map<string, WordStats>, tokens: seq<string>, t: TranscriptEntry,
                                         w: string)
    ensures w in CountWords(words, tokens, t) <==> w in words || w in tokens
    decreases |tokens|
  {
    if |tokens| > 0 {
      var init := tokens[..|tokens| - 1];
      CountWordsKey(words, init, t, w);
      assert tokens == init + [tokens[|tokens| - 1]];
      assert w in tokens <==> w in init || w == tokens[|tokens| - 1];
    }
  }

  /** Counting tokens adds each token's number of occurrences to its frequency. */
  lemma {:induction false} CountWordsFrequency(words: map<string, WordStats>, tokens: seq<string>,
                                               t: TranscriptEntry, w: string)
    requires WordsValid(words)
    ensures Frequency(CountWords(words, tokens, t), w) == Frequency(words, w) + Count(tokens, w)
    decreases |tokens|
  {
    if |tokens| > 0 {
      var init := tokens[..|tokens| - 1];
      CountWordsFrequency(words, init, t, w);
      CountWordsValid(words, init, t);
      CountWordStep(CountWords(words, init, t), tokens[|tokens| - 1], t);
      CountLast(tokens, w);
    }
  }

  /**
   * Counting tokens adds each token's number of occurrences to its
   * frequency, adds exactly the tokens as keys and keeps every word's
   * statistics valid.
   */
  lemma CountWordsSpec(words: map<string, WordStats>, tokens: seq<string>, t: TranscriptEntry)
    requires WordsValid(words)
    ensures WordsValid(CountWords(words, tokens, t))
    ensures forall w :: w in CountWords(words, tokens, t) <==> w in words || w in tokens
    ensures forall w :: Frequency(CountWords(words, tokens, t), w) == Frequency(words, w) + Count(tokens, w)
  {
    CountWordsValid(words, tokens, t);
    forall w ensures Frequency(CountWords(words, tokens, t), w) == Frequency(words, w) + Count(tokens, w) {
      CountWordsFrequency(words, tokens, t, w);
    }
    forall w ensures w in CountWords(words, tokens, t) <==> w in words || w in tokens {
      CountWordsKey(words, tokens, t, w);
    }
  }

  // ---------------------------------------------------------------------
  // Daily statistics
  // ---------------------------------------------------------------------

  /** A date's statistics before its first transcript. */
  function FreshDailyStats(date: int): DailyStats
  {
    DailyStats(date, 0, 0, 0.0, 0, 0, 0)
  }

  /**
   * `update_daily_stats`: the transcript's date gains one transcript, its
   * words, its processing time and a confidence sample, and its peak hour
   * becomes the transcript's hour.
   */
  function DailyUpdate(daily: map<int, DailyStats>, t: TranscriptEntry): (r: map<int, DailyStats>)
    ensures r.Keys == daily.Keys + {DateOf(t.timestamp)}
    ensures forall d :: d in daily && d != DateOf(t.timestamp) ==> r[d] == daily[d]
  {
    var date := DateOf(t.timestamp);
    var s := if date in daily then daily[date] else FreshDailyStats(date);
    daily[date := s.(total_transcripts := s.total_transcripts + 1, total_words := s.total_words + WordCount(t.text),
                     average_confidence := MeanAfter(s.average_confidence, s.total_transcripts, t.confidence),
                     total_processing_time := s.total_processing_time + t.duration_ms,
                     peak_hour := HourOf(t.timestamp))]
  }

  /** The transcript counts of the days. */
  function TranscriptCounts(daily: map<int, DailyStats>): map<int, nat>
  {
    map d | d in daily :: daily[d].total_transcripts
  }

  /** The word counts of the days. */
  function WordCounts(daily: map<int, DailyStats>): map<int, nat>
  {
    map d | d in daily :: daily[d].total_words
  }

  /** Every day is filed under its own date. */
  predicate DatesMatch(daily: map<int, DailyStats>)
  {
    forall d :: d in daily ==> daily[d].date == d
  }

  /**
   * Over all days, a transcript adds one transcript and its whitespace
   * word count; the day's entry counts it, and days stay filed under
   * their dates.
   */
  lemma DailyUpdateSpec(daily: map<int, DailyStats>, t: TranscriptEntry)
    requires DatesMatch(daily)
    ensures DatesMatch(DailyUpdate(daily, t))
    ensures MapSum(TranscriptCounts(DailyUpdate(daily, t))) == MapSum(TranscriptCounts(daily)) + 1
    ensures MapSum(WordCounts(DailyUpdate(daily, t))) == MapSum(WordCounts(daily)) + WordCount(t.text)
    ensures var s := DailyUpdate(daily, t)[DateOf(t.timestamp)];
      s.total_transcripts == (if DateOf(t.timestamp) in daily then daily[DateOf(t.timestamp)].total_transcripts else 0) + 1
  {
    var date := DateOf(t.timestamp);
    var r := DailyUpdate(daily, t);
    var tc, wc := TranscriptCounts(daily), WordCounts(daily);
    MapSumUpdate(tc, date, r[date].total_transcripts);
    assert TranscriptCounts(r) == tc[date := r[date].total_transcripts];
    MapSumUpdate(wc, date, r[date].total_words);
    assert WordCounts(r) == wc[date := r[date].total_words];
  }

  /**
   * `get_daily_stats`: the statistics of the dates from `start` to `end`
   * inclusive, in date order (the ordered map's range).
   */
  function DailyRange(daily: map<int, DailyStats>, start: int, end: int): seq<DailyStats>
    decreases end - start
  {
    if start > end then []
    else (if start in daily then [daily[start]] else []) + DailyRange(daily, start + 1, end)
  }

  /**
   * The range holds the statistics of exactly the stored dates between the
   * bounds, each once, in increasing date order.
   */
  lemma {:induction false} DailyRangeSpec(daily: map<int, DailyStats>, start: int, end: int)
    requires DatesMatch(daily)
    ensures forall s :: s in DailyRange(daily, start, end) <==> s.date in daily && daily[s.date] == s && start <= s.date <= end
    ensures forall i, j :: 0 <= i < j < |DailyRange(daily, start, end)| ==>
      DailyRange(daily, start, end)[i].date < DailyRange(daily, start, end)[j].date
    decreases end - start
  {
    if start <= end {
      DailyRangeSpec(daily, start + 1, end);
      var rest := DailyRange(daily, start + 1, end);
      var r := DailyRange(daily, start, end);
      if start in daily {
        assert r == [daily[start]] + rest;
        forall i, j | 0 <= i < j < |r| ensures r[i].date < r[j].date {
          assert r[j] == rest[j - 1] && r[j] in rest;
          if i > 0 {
            assert r[i] == rest[i - 1];
          }
        }
      }
    }
  }

  // ---------------------------------------------------------------------
  // Accuracy trend
  // ---------------------------------------------------------------------

  /** Leading points older than the cutoff dropped. */
  function DropOlder(trend: seq<AccuracyPoint>, cutoff: int): seq<AccuracyPoint>
  {
    if |trend| > 0 && trend[0].timestamp < cutoff then DropOlder(trend[1..], cutoff) else trend
  }

  /**
   * Pruning only removes from the front: what is left is a suffix, its
   * first point is inside the window, and every dropped point is older
   * than the cutoff.
   */
  lemma {:induction false} DropOlderSpec(trend: seq<AccuracyPoint>, cutoff: int)
    ensures |DropOlder(trend, cutoff)| <= |trend|
    ensures DropOlder(trend, cutoff) == trend[|trend| - |DropOlder(trend, cutoff)|..]
    ensures |DropOlder(trend, cutoff)| > 0 ==> DropOlder(trend, cutoff)[0].timestamp >= cutoff
    ensures forall k :: 0 <= k < |trend| - |DropOlder(trend, cutoff)| ==> trend[k].timestamp < cutoff
    decreases |trend|
  {
    if |trend| > 0 && trend[0].timestamp < cutoff {
      DropOlderSpec(trend[1..], cutoff);
      var r := DropOlder(trend, cutoff);
      forall k | 0 <= k < |trend| - |r| ensures trend[k].timestamp < cutoff {
        if k > 0 {
          assert trend[k] == trend[1..][k - 1];
        }
      }
    }
  }

  /** The oldest timestamp the retention window keeps. */
  function RetentionCutoff(now: int, retention_days: nat): int
  {
    now - retention_days * 86400
  }

  /** The accuracy sample a transcript contributes. */
  function AccuracyOf(t: TranscriptEntry): AccuracyPoint
  {
    AccuracyPoint(t.timestamp, t.confidence, 1, t.model)
  }

  /** `update_accuracy_trends`: append the transcript's sample, then pop samples older than the window from the front. */
  method PruneAccuracy(trend: seq<AccuracyPoint>, t: TranscriptEntry, now: int, retention_days: nat)
    returns (r: seq<AccuracyPoint>)
    ensures r == DropOlder(trend + [AccuracyOf(t)], RetentionCutoff(now, retention_days))
  {
    r := trend + [AccuracyOf(t)];
    ghost var appended := r;
    var cutoff := RetentionCutoff(now, retention_days);
    while |r| > 0
      invariant DropOlder(r, cutoff) == DropOlder(appended, cutoff)
      decreases |r|
    {
      if r[0].timestamp >= cutoff {
        break;
      }
      r := r[1..];
    }
  }

  /** `calculate_overall_confidence`: the mean accuracy of the trend, 0 when it is empty. */
  function MeanAccuracy(trend: seq<AccuracyPoint>): real
  {
    if |trend| == 0 then 0.0 else AccuracySum(trend) / |trend| as real
  }

  function AccuracySum(trend: seq<AccuracyPoint>): real
  {
    if |trend| == 0 then 0.0 else AccuracySum(trend[..|trend| - 1]) + trend[|trend| - 1].accuracy
  }

  /** A single sample's mean is its accuracy. */
  lemma MeanAccuracySingle(p: AccuracyPoint)
    ensures MeanAccuracy([p]) == p.accuracy
  {
    assert [p][..0] == [];
    assert AccuracySum([p]) == AccuracySum([]) + p.accuracy;
  }

  lemma {:induction false} AccuracySumBounds(trend: seq<AccuracyPoint>, lo: real, hi: real)
    requires forall i :: 0 <= i < |trend| ==> lo <= trend[i].accuracy <= hi
    ensures lo * |trend| as real <= AccuracySum(trend) <= hi * |trend| as real
    decreases |trend|
  {
    if |trend| > 0 {
      var init := trend[..|trend| - 1];
      AccuracySumBounds(init, lo, hi);
      assert |trend| as real == |init| as real + 1.0;
      assert lo * |trend| as real == lo * |init| as real + lo;
      assert hi * |trend| as real == hi * |init| as real + hi;
    }
  }

  /** The mean accuracy of a non-empty trend lies between its smallest and largest samples' bounds. */
  lemma MeanAccuracyBounds(trend: seq<AccuracyPoint>, lo: real, hi: real)
    requires |trend| > 0
    requires forall i :: 0 <= i < |trend| ==> lo <= trend[i].accuracy <= hi
    ensures lo <= MeanAccuracy(trend) <= hi
  {
    AccuracySumBounds(trend, lo, hi);
    var n := |trend| as real;
    assert lo * n / n == lo && hi * n / n == hi;
  }

  // ---------------------------------------------------------------------
  // Sessions and models
  // ---------------------------------------------------------------------

  /**
   * `update_session_analytics`: one more transcript, its words, its
   * processing time and a confidence sample; the words per minute are
   * recomputed once the session has lasted a whole second.
   */
  function SessionUpdate(s: SessionAnalytics, t: TranscriptEntry): (r: SessionAnalytics)
    ensures r.session_id == s.session_id && r.total_transcripts == s.total_transcripts + 1
    ensures r.total_words == s.total_words + WordCount(t.text)
    ensures r.session_duration_ms == s.session_duration_ms + t.duration_ms
    ensures r.session_duration_ms / 1000 > 0 ==>
      r.words_per_minute * (r.session_duration_ms / 1000) as real == r.total_words as real * 60.0
    ensures r.session_duration_ms / 1000 == 0 ==> r.words_per_minute == s.words_per_minute
  {
    var words := s.total_words + WordCount(t.text);
    var ms := s.session_duration_ms + t.duration_ms;
    var secs := ms / 1000;
    s.(total_transcripts := s.total_transcripts + 1, total_words := words,
       average_confidence := MeanAfter(s.average_confidence, s.total_transcripts, t.confidence),
       session_duration_ms := ms,
       words_per_minute := if secs > 0 then (words as real * 60.0) / secs as real else s.words_per_minute)
  }

  /** A session's analytics before its first transcript. */
  function FreshSession(id: SessionId): SessionAnalytics
  {
    SessionAnalytics(id, 0, 0, 0.0, 0, 0.0)
  }

  /** The largest `u64`. */
  const U64_MAX: nat := 0xFFFF_FFFF_FFFF_FFFF

  /**
   * `update_model_performance`: one more transcript and confidence sample,
   * the processing-time mean in whole milliseconds (rounded down and
   * capped at the largest `u64`), and the accuracy sample appended.
   */
  function ModelUpdate(m: ModelPerformance, t: TranscriptEntry): (r: ModelPerformance)
    ensures r.model_name == m.model_name && r.total_transcripts == m.total_transcripts + 1
    ensures r.accuracy_history == m.accuracy_history + [AccuracyOf(t)]
  {
    var n := m.total_transcripts + 1;
    var mean := (m.average_processing_ms * m.total_transcripts + t.duration_ms) / n;
    m.(total_transcripts := n,
       average_confidence := MeanAfter(m.average_confidence, m.total_transcripts, t.confidence),
       average_processing_ms := if mean < U64_MAX then mean else U64_MAX,
       accuracy_history := m.accuracy_history + [AccuracyOf(t)])
  }

  /** The processing-time mean never exceeds the larger of the old mean and the new sample, so the cap never applies to `u64` inputs. */
  lemma ModelMeanBounded(m: ModelPerformance, t: TranscriptEntry)
    ensures ModelUpdate(m, t).average_processing_ms <= Max(m.average_processing_ms, t.duration_ms)
  {
    var k := m.total_transcripts;
    var big := Max(m.average_processing_ms, t.duration_ms);
    assert m.average_processing_ms * k + t.duration_ms <= big * k + big;
    assert big * k + big == big * (k + 1);
    DivBelow(m.average_processing_ms * k + t.duration_ms, big, k + 1);
  }

  lemma DivBelow(a: nat, b: nat, n: nat)
    requires n > 0 && a <= b * n
    ensures a / n <= b
  {
  }

  /** A model's performance before its first transcript. */
  function FreshModel(name: string): ModelPerformance
  {
    ModelPerformance(name, 0, 0.0, 0, [])
  }

  // ---------------------------------------------------------------------
  // Usage and quality
  // ---------------------------------------------------------------------

  /** `weekday().num_days_from_monday()`: 1 January 1970 was a Thursday. */
  function WeekdayOf(timestamp: int): (w: nat)
    ensures w < 7
  {
    (DateOf(timestamp) + 3) % 7
  }

  /** Strictly ascending order: sorted and without duplicates. */
  predicate StrictlyAscending(s: seq<nat>)
  {
    forall i, j :: 0 <= i < j < |s| ==> s[i] < s[j]
  }

  /** Insert into an ascending sequence, before the first element not below it. */
  function InsertAscending(x: nat, s: seq<nat>): (r: seq<nat>)
    ensures |r| == |s| + 1
  {
    if |s| == 0 || x <= s[0] then [x] + s else [s[0]] + InsertAscending(x, s[1..])
  }

  /** Prepending an element below all the others keeps a sequence strictly ascending. */
  lemma ConsAscending(h: nat, rest: seq<nat>)
    requires StrictlyAscending(rest) && forall k :: 0 <= k < |rest| ==> h < rest[k]
    ensures StrictlyAscending([h] + rest)
  {
    var r := [h] + rest;
    forall i, j | 0 <= i < j < |r| ensures r[i] < r[j] {
      assert r[j] == rest[j - 1];
      if i > 0 {
        assert r[i] == rest[i - 1];
      }
    }
  }

  /** Inserting a new element into a strictly ascending sequence keeps it strictly ascending and adds just that element. */
  lemma {:induction false} InsertAscendingSpec(x: nat, s: seq<nat>)
    requires StrictlyAscending(s) && x !in s
    ensures StrictlyAscending(InsertAscending(x, s))
    ensures forall y :: y in InsertAscending(x, s) <==> y == x || y in s
    decreases |s|
  {
    if |s| == 0 || x <= s[0] {
      assert forall k :: 0 <= k < |s| ==> x < s[k] by {
        forall k | 0 <= k < |s| ensures x < s[k] {
          assert s[k] in s;
          assert k == 0 || s[0] < s[k];
        }
      }
      ConsAscending(x, s);
    } else {
      var rest := InsertAscending(x, s[1..]);
      assert forall y :: y in s <==> y == s[0] || y in s[1..] by {
        assert s == [s[0]] + s[1..];
      }
      InsertAscendingSpec(x, s[1..]);
      forall k | 0 <= k < |rest| ensures s[0] < rest[k] {
        assert rest[k] in rest;
        if rest[k] != x {
          var m :| 0 <= m < |s[1..]| && s[1..][m] == rest[k];
          assert s[m + 1] == rest[k];
        }
      }
      ConsAscending(s[0], rest);
    }
  }

  /**
   * The peak hours after a transcript at `hour`: an hour not yet listed is
   * pushed, the list sorted and truncated to three.
   */
  function PeakHoursAfter(peak: seq<nat>, hour: nat): seq<nat>
  {
    if hour in peak then peak else Take(InsertAscending(hour, peak), 3)
  }

  /**
   * The peak hours stay strictly ascending and at most three, hold only
   * hours seen, and a new hour is kept while fewer than three are listed.
   */
  lemma PeakHoursSpec(peak: seq<nat>, hour: nat)
    requires StrictlyAscending(peak) && |peak| <= 3
    ensures StrictlyAscending(PeakHoursAfter(peak, hour)) && |PeakHoursAfter(peak, hour)| <= 3
    ensures forall h :: h in PeakHoursAfter(peak, hour) ==> h in peak || h == hour
    ensures |peak| < 3 ==> hour in PeakHoursAfter(peak, hour)
  {
    if hour !in peak {
      InsertAscendingSpec(hour, peak);
      var ins := InsertAscending(hour, peak);
      var r := Take(ins, 3);
      assert forall k :: 0 <= k < |r| ==> r[k] == ins[k];
      forall h | h in r ensures h in peak || h == hour {
        var k :| 0 <= k < |r| && r[k] == h;
        assert ins[k] in ins;
      }
      if |peak| < 3 {
        assert r == ins;
      }
    }
  }

  /** `quality_trends` after a transcript: the first point of its date averaged and counted, or a new point. */
  function QualityTrendAfter(trend: seq<QualityTrendPoint>, date: int, confidence: real): (r: seq<QualityTrendPoint>)
    ensures |r| == |trend| || |r| == |trend| + 1
  {
    if |trend| == 0 then [QualityTrendPoint(date, confidence, 1, (confidence, confidence))]
    else if trend[0].date == date then
      [trend[0].(quality_score := (trend[0].quality_score + confidence) / 2.0,
                 sample_count := trend[0].sample_count + 1)] + trend[1..]
    else [trend[0]] + QualityTrendAfter(trend[1..], date, confidence)
  }

  /** `quality_by_hour` after a transcript: the hour's quality, 0 when unseen, averaged with the confidence. */
  function HourQualityAfter(by_hour: map<nat, real>, t: TranscriptEntry): (r: map<nat, real>)
    ensures r.Keys == by_hour.Keys + {HourOf(t.timestamp)}
    ensures forall h :: h in by_hour && h != HourOf(t.timestamp) ==> r[h] == by_hour[h]
  {
    var hour := HourOf(t.timestamp);
    by_hour[hour := ((if hour in by_hour then by_hour[hour] else 0.0) + t.confidence) / 2.0]
  }

  /** The session map after a transcript: its session, if any, is updated or created. */
  function SessionsAfter(sessions: map<SessionId, SessionAnalytics>, t: TranscriptEntry)
    : (r: map<SessionId, SessionAnalytics>)
    ensures t.session_id.None? ==> r == sessions
    ensures t.session_id.Some? ==> r.Keys == sessions.Keys + {t.session_id.value}
  {
    match t.session_id
    case None => sessions
    case Some(id) => sessions[id := SessionUpdate(if id in sessions then sessions[id] else FreshSession(id), t)]
  }

  /** The model map after a transcript: its model is updated or created. */
  function ModelsAfter(models: map<string, ModelPerformance>, t: TranscriptEntry): (r: map<string, ModelPerformance>)
    ensures r.Keys == models.Keys + {t.model}
  {
    models[t.model := ModelUpdate(if t.model in models then models[t.model] else FreshModel(t.model), t)]
  }

  /** The latency a transcript contributes. */
  function LatencyOf(t: TranscriptEntry): LatencyPoint
  {
    LatencyPoint(t.timestamp, t.duration_ms, |t.text|, t.model)
  }

  /** The throughput of a transcript: words per second of processing, 0 for no processing time. */
  function Throughput(t: TranscriptEntry): real
  {
    if t.duration_ms > 0 then WordCount(t.text) as real / (t.duration_ms as real / 1000.0) else 0.0
  }

  /** `UsagePatterns` without the session-length distribution and the behaviour insights, which nothing fills. */
  datatype UsagePatterns = UsagePatterns(
    peak_hours: seq<nat>, daily_distribution: map<nat, nat>, weekly_distribution: map<nat, nat>)

  /** `QualityInsights` without the issue and recommendation lists, which nothing fills. */
  datatype QualityInsights = QualityInsights(
    overall_quality: real, quality_trends: seq<QualityTrendPoint>, quality_by_hour: map<nat, real>)

  /** The histories of `PerformanceMetrics`; the summary statistics stay at their initial values. */
  datatype PerformanceMetrics = PerformanceMetrics(
    latency_history: seq<LatencyPoint>, throughput_history: seq<ThroughputPoint>)

  /** `update_usage_patterns`: count the hour and the weekday, and update the peak hours. */
  function UsageAfter(u: UsagePatterns, t: TranscriptEntry): (r: UsagePatterns)
    ensures r.daily_distribution == Bump(u.daily_distribution, HourOf(t.timestamp))
    ensures r.weekly_distribution == Bump(u.weekly_distribution, WeekdayOf(t.timestamp))
  {
    UsagePatterns(PeakHoursAfter(u.peak_hours, HourOf(t.timestamp)), Bump(u.daily_distribution, HourOf(t.timestamp)),
                  Bump(u.weekly_distribution, WeekdayOf(t.timestamp)))
  }

  /**
   * `update_quality_insights`: the running quality, weighted by the number
   * of trend points before the update, then the date's trend point and the
   * hour's quality.
   */
  function QualityAfter(q: QualityInsights, t: TranscriptEntry): QualityInsights
  {
    QualityInsights(MeanAfter(q.overall_quality, |q.quality_trends|, t.confidence),
                    QualityTrendAfter(q.quality_trends, DateOf(t.timestamp), t.confidence),
                    HourQualityAfter(q.quality_by_hour, t))
  }

  /** `update_performance_metrics`: one latency point and one throughput point. */
  function PerformanceAfter(p: PerformanceMetrics, t: TranscriptEntry): (r: PerformanceMetrics)
    ensures r.latency_history == p.latency_history + [LatencyOf(t)]
    ensures |r.throughput_history| == |p.throughput_history| + 1
    ensures r.throughput_history[|p.throughput_history|].throughput == Throughput(t)
  {
    PerformanceMetrics(p.latency_history + [LatencyOf(t)],
                       p.throughput_history + [ThroughputPoint(t.timestamp, Throughput(t), 1)])
  }

  // ---------------------------------------------------------------------
  // The engine
  // ---------------------------------------------------------------------

  /** Some analytics feature is switched on. */
  predicate AnyEnabled(config: AnalyticsConfig)
  {
    config.enable_word_frequency || config.enable_daily_stats || config.enable_accuracy_tracking
  }

  /** The updatable state of the engine, one component per field. */
  datatype AnalyticsState = AnalyticsState(
    word_frequency: map<string, WordStats>, daily_stats: map<int, DailyStats>,
    accuracy_trends: seq<AccuracyPoint>, session_correlations: map<SessionId, SessionAnalytics>,
    model_performance: map<string, ModelPerformance>, usage_patterns: UsagePatterns,
    quality_insights: QualityInsights, performance_metrics: PerformanceMetrics)

  /** Word statistics are valid, days are filed under their dates, and the peak hours are strictly ascending and few. */
  predicate StateValid(s: AnalyticsState)
  {
    WordsValid(s.word_frequency) && DatesMatch(s.daily_stats)
    && StrictlyAscending(s.usage_patterns.peak_hours) && |s.usage_patterns.peak_hours| <= 3
  }

  /** The state of a new engine. */
  function EmptyState(): (s: AnalyticsState)
    ensures StateValid(s)
  {
    AnalyticsState(map[], map[], [], map[], map[], UsagePatterns([], map[], map[]), QualityInsights(0.0, [], map[]),
                   PerformanceMetrics([], []))
  }

  /**
   * `update_with_transcript` at time `now`: with all three features off
   * nothing changes. Otherwise the enabled word, daily and accuracy
   * updates, then the session update when the transcript has a session,
   * and the model, usage, quality and performance updates.
   */
  function Step(config: AnalyticsConfig, s: AnalyticsState, t: TranscriptEntry, now: int): AnalyticsState
  {
    if !AnyEnabled(config) then s
    else
      AnalyticsState(
        if config.enable_word_frequency then CountWords(s.word_frequency, AnalyticsTokens(t.text), t)
        else s.word_frequency,
        if config.enable_daily_stats then DailyUpdate(s.daily_stats, t) else s.daily_stats,
        if config.enable_accuracy_tracking
        then DropOlder(s.accuracy_trends + [AccuracyOf(t)], RetentionCutoff(now, config.retention_days))
        else s.accuracy_trends,
        SessionsAfter(s.session_correlations, t), ModelsAfter(s.model_performance, t),
        UsageAfter(s.usage_patterns, t), QualityAfter(s.quality_insights, t),
        PerformanceAfter(s.performance_metrics, t))
  }

  /** An update keeps the state valid. */
  lemma StepValid(config: AnalyticsConfig, s: AnalyticsState, t: TranscriptEntry, now: int)
    requires StateValid(s)
    ensures StateValid(Step(config, s, t, now))
  {
    CountWordsSpec(s.word_frequency, AnalyticsTokens(t.text), t);
    DailyUpdateSpec(s.daily_stats, t);
    PeakHoursSpec(s.usage_patterns.peak_hours, HourOf(t.timestamp));
  }

  /** The update, with the two loops of the word and accuracy updates. */
  method StepState(config: AnalyticsConfig, s: AnalyticsState, t: TranscriptEntry, now: int)
    returns (r: AnalyticsState)
    ensures r == Step(config, s, t, now)
  {
    if !AnyEnabled(config) {
      return s;
    }
    var words := s.word_frequency;
    if config.enable_word_frequency {
      words := CountTokens(words, AnalyticsTokens(t.text), t);
    }
    var trend := s.accuracy_trends;
    if config.enable_accuracy_tracking {
      trend := PruneAccuracy(trend, t, now, config.retention_days);
    }
    r := AnalyticsState(
      words, if config.enable_daily_stats then DailyUpdate(s.daily_stats, t) else s.daily_stats, trend,
      SessionsAfter(s.session_correlations, t), ModelsAfter(s.model_performance, t),
      UsageAfter(s.usage_patterns, t), QualityAfter(s.quality_insights, t),
      PerformanceAfter(s.performance_metrics, t));
  }

  /** `TranscriptAnalytics`. */
  class TranscriptAnalytics {
    const config: AnalyticsConfig
    var word_frequency: map<string, WordStats>
    /** The ordered map of daily statistics, keyed by day number. */
    var daily_stats: map<int, DailyStats>
    var accuracy_trends: seq<AccuracyPoint>
    var session_correlations: map<SessionId, SessionAnalytics>
    var model_performance: map<string, ModelPerformance>
    var usage_patterns: UsagePatterns
    var quality_insights: QualityInsights
    var performance_metrics: PerformanceMetrics

    /** The fields as one value. */
    function State(): AnalyticsState
      reads this
    {
      AnalyticsState(word_frequency, daily_stats, accuracy_trends, session_correlations, model_performance,
                     usage_patterns, quality_insights, performance_metrics)
    }

    predicate Valid()
      reads this
    {
      StateValid(State())
    }

    /** `new`: everything empty. */
    constructor (config: AnalyticsConfig)
      ensures Valid() && this.config == config && State() == EmptyState()
    {
      this.config := config;
      word_frequency, daily_stats, accuracy_trends := map[], map[], [];
      session_correlations, model_performance := map[], map[];
      usage_patterns := UsagePatterns([], map[], map[]);
      quality_insights := QualityInsights(0.0, [], map[]);
      performance_metrics := PerformanceMetrics([], []);
    }

    /** `update_with_transcript`: the state steps, and stays valid; with every feature off it is unchanged. */
    method UpdateWithTranscript(t: TranscriptEntry, now: int)
      requires Valid()
      modifies this
      ensures Valid()
      ensures State() == Step(config, old(State()), t, now)
      ensures !AnyEnabled(config) ==> State() == old(State())
    {
      StepValid(config, State(), t, now);
      var next := StepState(config, State(), t, now);
      SetState(next);
    }

    method SetState(s: AnalyticsState)
      modifies this
      ensures State() == s
    {
      word_frequency, daily_stats, accuracy_trends := s.word_frequency, s.daily_stats, s.accuracy_trends;
      session_correlations, model_performance := s.session_correlations, s.model_performance;
      usage_patterns, quality_insights, performance_metrics := s.usage_patterns, s.quality_insights,
                                                                s.performance_metrics;
    }

    /**
     * `get_word_frequency`: the words in iteration order `order`, stably
     * sorted by descending frequency, truncated to the limit.
     */
    method GetWordFrequency(limit: Option<nat>) returns (r: seq<(string, WordStats)>, order: seq<string>)
      ensures IsOrderOf(order, word_frequency.Keys)
      ensures r == TopWords(word_frequency, order, limit)
    {
      order := Enumerate(word_frequency.Keys);
      var pairs := Pairs(word_frequency, order);
      r := SortDesc(pairs, ByFrequency);
      if limit.Some? {
        r := Take(r, limit.value);
      }
    }

    /** `get_daily_stats`: the dates from `start` to `end`; the range must not be reversed. */
    function GetDailyStats(start: int, end: int): (r: seq<DailyStats>)
      requires Valid() && start <= end
      reads this
      ensures forall s :: s in r <==> s.date in daily_stats && daily_stats[s.date] == s && start <= s.date <= end
      ensures forall i, j :: 0 <= i < j < |r| ==> r[i].date < r[j].date
    {
      DailyRangeSpec(daily_stats, start, end);
      DailyRange(daily_stats, start, end)
    }

    /**
     * `generate_report`: transcript and word totals summed over the days,
     * the mean accuracy, the twenty most frequent words, the overall
     * quality, and the usage insights and recommendations it implies.
     */
    method GenerateReport() returns (report: AnalyticsReport, order: seq<string>)
      ensures report.total_transcripts == MapSum(TranscriptCounts(daily_stats))
      ensures report.total_words == MapSum(WordCounts(daily_stats))
      ensures report.average_confidence == MeanAccuracy(accuracy_trends)
      ensures IsOrderOf(order, word_frequency.Keys)
      ensures report.top_words == Frequencies(TopWords(word_frequency, order, Some(20)))
      ensures report.quality_score == quality_insights.overall_quality
      ensures report.usage_insights == UsageInsights(usage_patterns.peak_hours, quality_insights.overall_quality)
      ensures report.recommendations == Recommendations(usage_patterns.peak_hours, quality_insights.overall_quality)
    {
      var days := Enumerate(daily_stats.Keys);
      var transcripts, words := SumDays(daily_stats, days);
      var top;
      top, order := GetWordFrequency(Some(20));
      var quality := quality_insights.overall_quality;
      report := AnalyticsReport(transcripts, words, MeanAccuracy(accuracy_trends), Frequencies(top), quality,
                                UsageInsights(usage_patterns.peak_hours, quality),
                                Recommendations(usage_patterns.peak_hours, quality));
    }
  }

  /** The counting loop of `update_word_frequency`. */
  method CountTokens(words: map<string, WordStats>, tokens: seq<string>, t: TranscriptEntry)
    returns (r: map<string, WordStats>)
    ensures r == CountWords(words, tokens, t)
  {
    r := words;
    for i := 0 to |tokens|
      invariant r == CountWords(words, tokens[..i], t)
    {
      assert tokens[..i + 1][..i] == tokens[..i];
      var word := tokens[i];
      var stats := if word in r then r[word] else FreshWordStats(t);
      r := r[word := Occurrence(stats, t)];
    }
    assert tokens[..|tokens|] == tokens;
  }

  /** The transcript and word totals of the days listed, summed one day at a time. */
  method SumDays(daily: map<int, DailyStats>, days: seq<int>) returns (transcripts: nat, words: nat)
    requires NoDuplicates(days) && forall d :: d in days <==> d in daily
    ensures transcripts == MapSum(TranscriptCounts(daily)) && words == MapSum(WordCounts(daily))
  {
    transcripts, words := 0, 0;
    for i := 0 to |days|
      invariant transcripts == SeqSum(TranscriptCounts(daily), days[..i])
      invariant words == SeqSum(WordCounts(daily), days[..i])
    {
      assert days[i] in days;
      assert days[i] in daily;
      assert days[..i + 1][..i] == days[..i];
      transcripts := transcripts + daily[days[i]].total_transcripts;
      words := words + daily[days[i]].total_words;
    }
    assert days[..|days|] == days;
    SeqSumAll(TranscriptCounts(daily), days);
    SeqSumAll(WordCounts(daily), days);
  }

  /** The sort key of `get_word_frequency`. */
  function ByFrequency(p: (string, WordStats)): real
  {
    p.1.frequency as real
  }

  /** The map's entries along a key order. */
  function Pairs(words: map<string, WordStats>, order: seq<string>): (r: seq<(string, WordStats)>)
    requires forall w :: w in order ==> w in words
    ensures |r| == |order| && forall i :: 0 <= i < |order| ==> r[i] == (order[i], words[order[i]])
  {
    if |order| == 0 then [] else [(order[0], words[order[0]])] + Pairs(words, order[1..])
  }

  /** `get_word_frequency` on an iteration order: stably sorted by descending frequency, truncated to the limit. */
  function TopWords(words: map<string, WordStats>, order: seq<string>, limit: Option<nat>)
    : seq<(string, WordStats)>
    requires forall w :: w in order ==> w in words
  {
    var sorted := SortDesc(Pairs(words, order), ByFrequency);
    if limit.Some? then Take(sorted, limit.value) else sorted
  }

  /** The pairs of a key order, sorted, hold exactly the map's entries along that order. */
  lemma SortedPairsMembers(words: map<string, WordStats>, order: seq<string>, p: (string, WordStats))
    requires forall w :: w in order ==> w in words
    ensures p in SortDesc(Pairs(words, order), ByFrequency) <==> p.0 in order && p.1 == words[p.0]
  {
    var pairs := Pairs(words, order);
    var sorted := SortDesc(pairs, ByFrequency);
    InMultisetMembers(sorted, pairs, p);
    InMultisetMembers(pairs, sorted, p);
    if p.0 in order && p.1 == words[p.0] {
      var i :| 0 <= i < |order| && order[i] == p.0;
      assert pairs[i] == p;
    }
  }

  /**
   * The top words are entries of the map, in descending frequency, at most
   * the limit; without a limit every word appears, and there are as many
   * as words.
   */
  lemma TopWordsSpec(words: map<string, WordStats>, order: seq<string>, limit: Option<nat>)
    requires NoDuplicates(order) && forall w :: w in order <==> w in words
    ensures forall p :: p in TopWords(words, order, limit) ==> p.0 in words && words[p.0] == p.1
    ensures forall i, j :: 0 <= i < j < |TopWords(words, order, limit)| ==>
      TopWords(words, order, limit)[i].1.frequency >= TopWords(words, order, limit)[j].1.frequency
    ensures limit.Some? ==> |TopWords(words, order, limit)| <= limit.value
    ensures limit.None? ==> |TopWords(words, order, limit)| == |words|
    ensures limit.None? ==> forall w :: w in words ==> (w, words[w]) in TopWords(words, order, limit)
  {
    var pairs := Pairs(words, order);
    var sorted := SortDesc(pairs, ByFrequency);
    SortDescSorted(pairs, ByFrequency);
    var r := TopWords(words, order, limit);
    forall p | p in r ensures p.0 in words && words[p.0] == p.1 {
      assert p in sorted;
      SortedPairsMembers(words, order, p);
    }
    forall i, j | 0 <= i < j < |r| ensures r[i].1.frequency >= r[j].1.frequency {
      assert r[i] == sorted[i] && r[j] == sorted[j];
      assert ByFrequency(sorted[i]) >= ByFrequency(sorted[j]);
    }
    if limit.None? {
      OrderCoversKeys(words, order);
      forall w | w in words ensures (w, words[w]) in r {
        SortedPairsMembers(words, order, (w, words[w]));
      }
    }
  }

  lemma OrderCoversKeys<K, V>(m: map<K, V>, order: seq<K>)
    requires NoDuplicates(order) && forall k :: k in order <==> k in m
    ensures |order| == |m|
  {
    var s := set k | k in order;
    assert s == m.Keys;
    NoDuplicatesCard(order);
  }

  lemma {:induction false} NoDuplicatesCard<T>(s: seq<T>)
    requires NoDuplicates(s)
    ensures |set x | x in s| == |s|
    decreases |s|
  {
    if |s| > 0 {
      var init := s[..|s| - 1];
      assert NoDuplicates(init);
      NoDuplicatesCard(init);
      assert (set x | x in s) == (set x | x in init) + {s[|s| - 1]};
      assert s[|s| - 1] !in init;
    }
  }

  /** Each word with its frequency. */
  function Frequencies(top: seq<(string, WordStats)>): (r: seq<(string, nat)>)
    ensures |r| == |top| && forall i :: 0 <= i < |top| ==> r[i] == (top[i].0, top[i].1.frequency)
  {
    if |top| == 0 then [] else [(top[0].0, top[0].1.frequency)] + Frequencies(top[1..])
  }

  /** The debug rendering of a list of hours, `[9, 14]`. */
  function HoursText(hours: seq<nat>): string
  {
    "[" + Join(Texts(hours), ", ") + "]"
  }

  function Texts(hours: seq<nat>): seq<string>
  {
    if |hours| == 0 then [] else [NatToString(hours[0])] + Texts(hours[1..])
  }

  /** `generate_usage_insights`. */
  function UsageInsights(peak: seq<nat>, quality: real): (r: seq<string>)
    ensures |r| <= 2
    ensures (|peak| > 0) <==> (|r| > 0 && r[0] == "Peak usage hours: " + HoursText(peak))
  {
    (if |peak| > 0 then ["Peak usage hours: " + HoursText(peak)] else [])
    + (if quality > 0.9 then ["Excellent transcription quality maintained"]
       else if quality < 0.7 then ["Transcription quality could be improved"] else [])
  }

  /** `generate_recommendations`. */
  function Recommendations(peak: seq<nat>, quality: real): (r: seq<string>)
    ensures |r| <= 2
    ensures "Consider improving audio quality or using a more advanced model" in r <==> quality < 0.8
    ensures "Consider load balancing during peak usage hours" in r <==> |peak| > 2
  {
    (if quality < 0.8 then ["Consider improving audio quality or using a more advanced model"] else [])
    + (if |peak| > 2 then ["Consider load balancing during peak usage hours"] else [])
  }

  // ---------------------------------------------------------------------
  // Scenarios
  // ---------------------------------------------------------------------

  lemma HelloWorldTokens(text: string, words: seq<string>)
    requires forall k :: 0 <= k < |words| ==> TranscriptSearch.IsToken(words[k]) && |words[k]| >= 2
    requires text == Join(words, " ")
    ensures AnalyticsTokens(text) == words
  {
    TranscriptSearch.TokenizeJoin(words);
    LongTokensKeep(words);
  }

  lemma {:induction false} LongTokensKeep(tokens: seq<string>)
    requires forall k :: 0 <= k < |tokens| ==> |tokens[k]| >= 2
    ensures LongTokens(tokens) == tokens
    decreases |tokens|
  {
    if |tokens| > 0 {
      LongTokensKeep(tokens[1..]);
      assert [tokens[0]] + tokens[1..] == tokens;
    }
  }

  /** Counting into an empty map: the keys are the tokens and each frequency is the token's count. */
  lemma CountFromEmpty(tokens: seq<string>, t: TranscriptEntry)
    ensures forall w :: w in CountWords(map[], tokens, t) <==> w in tokens
    ensures forall w :: Frequency(CountWords(map[], tokens, t), w) == Count(tokens, w)
  {
    CountWordsSpec(map[], tokens, t);
  }

  /** The counts of the three tokens of "hello world hello". */
  lemma HelloCounts(words: seq<string>)
    requires words == ["hello", "world", "hello"]
    ensures Count(words, "hello") == 2 && Count(words, "world") == 1
    ensures forall w :: w in words <==> w == "hello" || w == "world"
  {
    assert "world"[0] != "hello"[0];
    assert words[1..] == ["world", "hello"] && words[1..][1..] == ["hello"] && words[1..][1..][1..] == [];
    assert Count(["hello"], "hello") == 1 && Count(["hello"], "world") == 0;
    assert Count(["world", "hello"], "hello") == 1 && Count(["world", "hello"], "world") == 1;
  }

  /** With only word frequencies on, "hello world hello" counts hello twice and world once, and nothing else. */
  lemma WordFrequencyScenario(t: TranscriptEntry, now: int)
    requires t.text == "hello world hello"
    ensures var s := Step(AnalyticsConfig(true, false, false, 30), EmptyState(), t, now);
      (forall w :: w in s.word_frequency <==> w == "hello" || w == "world")
      && Frequency(s.word_frequency, "hello") == 2 && Frequency(s.word_frequency, "world") == 1
      && s.daily_stats == map[] && s.accuracy_trends == []
  {
    var words := ["hello", "world", "hello"];
    assert Join(words, " ") == "hello world hello";
    HelloWorldTokens(t.text, words);
    var tokens := AnalyticsTokens(t.text);
    CountFromEmpty(tokens, t);
    HelloCounts(tokens);
  }

  /** With only daily statistics on, "hello world" at 0.9 files one transcript of two words at 0.9 under its date. */
  lemma DailyStatsScenario(t: TranscriptEntry, now: int)
    requires t.text == "hello world" && t.confidence == 0.9
    ensures var s := Step(AnalyticsConfig(false, true, false, 30), EmptyState(), t, now);
      DateOf(t.timestamp) in s.daily_stats
      && s.daily_stats[DateOf(t.timestamp)].total_transcripts == 1
      && s.daily_stats[DateOf(t.timestamp)].total_words == 2
      && s.daily_stats[DateOf(t.timestamp)].average_confidence == 0.9
  {
    var words := ["hello", "world"];
    assert Join(words, " ") == "hello world";
    TranscriptSearch.TokensAreWords(words);
    SplitWhitespaceJoin(words);
  }

  /** One transcript of three words, filed into no days, gives totals of one transcript and three words. */
  lemma ReportTotals(t: TranscriptEntry)
    requires t.text == "hello world test"
    ensures MapSum(TranscriptCounts(DailyUpdate(map[], t))) == 1
    ensures MapSum(WordCounts(DailyUpdate(map[], t))) == 3
  {
    var words := ["hello", "world", "test"];
    assert Join(words, " ") == "hello world test";
    TranscriptSearch.TokensAreWords(words);
    SplitWhitespaceJoin(words);
    DailyUpdateSpec(map[], t);
    assert TranscriptCounts(map[]) == map[] && WordCounts(map[]) == map[];
  }

  /** A sample inside the window survives pruning, and its accuracy is the mean. */
  lemma ReportAccuracy(t: TranscriptEntry, cutoff: int)
    requires t.timestamp >= cutoff
    ensures MeanAccuracy(DropOlder([] + [AccuracyOf(t)], cutoff)) == t.confidence
  {
    assert [] + [AccuracyOf(t)] == [AccuracyOf(t)];
    MeanAccuracySingle(AccuracyOf(t));
  }

  /** With everything on, "hello world test" puts hello among the counted words. */
  lemma ReportWords(t: TranscriptEntry, now: int)
    requires t.text == "hello world test"
    ensures "hello" in Step(AnalyticsConfig(true, true, true, 30), EmptyState(), t, now).word_frequency
  {
    var words := ["hello", "world", "test"];
    assert Join(words, " ") == "hello world test";
    HelloWorldTokens(t.text, words);
    var tokens := AnalyticsTokens(t.text);
    CountFromEmpty(tokens, t);
    assert "hello" in tokens;
  }

  /** A non-empty word map has a non-empty top list. */
  lemma TopWordsNonEmpty(words: map<string, WordStats>, order: seq<string>, w: string)
    requires IsOrderOf(order, words.Keys) && w in words
    ensures |Frequencies(TopWords(words, order, Some(20)))| > 0
  {
    TopWordsSpec(words, order, None);
    assert (w, words[w]) in TopWords(words, order, None);
  }

  /**
   * With everything on, one "hello world test" at 0.85 inside the retention
   * window reports one transcript, three words, mean confidence 0.85 and a
   * non-empty top-word list.
   */
  lemma ReportScenario(t: TranscriptEntry, now: int, order: seq<string>)
    requires t.text == "hello world test" && t.confidence == 0.85
    requires t.timestamp >= RetentionCutoff(now, 30)
    requires IsOrderOf(order, Step(AnalyticsConfig(true, true, true, 30), EmptyState(), t, now).word_frequency.Keys)
    ensures var s := Step(AnalyticsConfig(true, true, true, 30), EmptyState(), t, now);
      MapSum(TranscriptCounts(s.daily_stats)) == 1 && MapSum(WordCounts(s.daily_stats)) == 3
      && MeanAccuracy(s.accuracy_trends) == 0.85
      && |Frequencies(TopWords(s.word_frequency, order, Some(20)))| > 0
  {
    var s := Step(AnalyticsConfig(true, true, true, 30), EmptyState(), t, now);
    ReportTotals(t);
    ReportAccuracy(t, RetentionCutoff(now, 30));
    ReportWords(t, now);
    TopWordsNonEmpty(s.word_frequency, order, "hello");
  }
}
