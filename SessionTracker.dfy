/**
 * The session transcript tracker: phrases are classified by indicator
 * substrings, their keywords extracted (lowercased words of at least three
 * characters that are not stop words, at most five per phrase), their
 * speaker detected (always the first speaker) and appended to the active
 * session, whose per-speaker profile and statistics are kept up to date;
 * ending a session records its final statistics under its id.
 *
 * Single-precision arithmetic is real arithmetic; times are whole
 * milliseconds; the clock and the fresh phrase ids are parameters.
 */
module SessionTracker {
  import opened Common

  type Uuid = nat

  // ---------------------------------------------------------------------
  // Records
  // ---------------------------------------------------------------------

  datatype PhraseType = Speech | Question | Command | Exclamation | Silence | Noise | Music

  datatype SentimentScore = SentimentScore(positive: real, negative: real, neutral: real, compound: real)

  /** `TranscriptPhrase`; durations and audio offsets in milliseconds. */
  datatype TranscriptPhrase = TranscriptPhrase(
    id: Uuid, session_id: Uuid, text: string, start_time: int, end_time: int, duration: nat,
    confidence: real, speaker_id: Option<string>, language: Option<string>, word_count: nat, is_final: bool,
    audio_segment_start: nat, audio_segment_end: nat, volume_level: real, background_noise_level: real,
    phrase_type: PhraseType, keywords: seq<string>, sentiment: Option<SentimentScore>)

  datatype SpeakingPatterns = SpeakingPatterns(
    average_phrase_length: real, pause_frequency: real, common_words: map<string, nat>, speaking_rhythm: real,
    interruption_frequency: real, question_frequency: real)

  datatype SpeakerProfile = SpeakerProfile(
    id: string, name: Option<string>, speaking_patterns: SpeakingPatterns, total_speaking_time: nat,
    phrase_count: nat, average_confidence: real, first_appearance: int, last_appearance: int)

  datatype SessionStatistics = SessionStatistics(
    total_phrases: nat, total_words: nat, total_speaking_time: nat, total_silence_time: nat,
    average_phrase_length: real, average_confidence: real, speaker_count: nat, interruption_count: nat,
    question_count: nat, command_count: nat, words_per_minute: real, silence_percentage: real)

  datatype SessionTranscript = SessionTranscript(
    session_id: Uuid, session_name: string, start_time: int, end_time: Option<int>, total_duration: nat,
    phrases: seq<TranscriptPhrase>, speakers: map<string, SpeakerProfile>, session_statistics: SessionStatistics,
    keywords: map<string, nat>, topics: seq<string>, summary: Option<string>, language: string)

  datatype TrackerConfig = TrackerConfig(
    min_phrase_duration: nat, max_silence_gap: nat, speaker_change_sensitivity: real,
    keyword_extraction_enabled: bool, sentiment_analysis_enabled: bool, real_time_processing: bool,
    auto_summarization: bool, quality_monitoring: bool)

  /** `TrackerConfig::default`. */
  function DefaultTrackerConfig(): (c: TrackerConfig)
    ensures c.min_phrase_duration == 500 && c.max_silence_gap == 2000 && c.speaker_change_sensitivity == 0.7
    ensures c.keyword_extraction_enabled && c.sentiment_analysis_enabled && c.real_time_processing
    ensures !c.auto_summarization && c.quality_monitoring
  {
    TrackerConfig(500, 2000, 0.7, true, true, true, false, true)
  }

  /** `SessionStatistics::default`: everything zero. */
  function DefaultStatistics(): SessionStatistics
  {
    SessionStatistics(0, 0, 0, 0, 0.0, 0.0, 0, 0, 0, 0, 0.0, 0.0)
  }

  /** `SpeakingPatterns::default`: a rhythm of 1.0, everything else zero or empty. */
  function DefaultPatterns(): SpeakingPatterns
  {
    SpeakingPatterns(0.0, 0.0, map[], 1.0, 0.0, 0.0)
  }

  // ---------------------------------------------------------------------
  // Phrase classification
  // ---------------------------------------------------------------------

  datatype PhraseClassifier = PhraseClassifier(
    question_indicators: seq<string>, command_indicators: seq<string>, exclamation_indicators: seq<string>,
    confidence_threshold: real)

  /** `PhraseClassifier::new`. */
  function NewClassifier(): PhraseClassifier
  {
    PhraseClassifier(["what", "where", "when", "why", "how", "who", "which", "?"],
                     ["please", "start", "stop", "begin", "end", "do", "make", "create", "delete"],
                     ["!", "wow", "amazing", "incredible", "fantastic"], 0.5)
  }

  /** `indicators.iter().any(|q| text.contains(q))`. */
  predicate AnyIn(text: string, indicators: seq<string>)
  {
    exists k :: 0 <= k < |indicators| && Contains(text, indicators[k])
  }

  /**
   * `classify`: a question mark or a question word makes a question; else
   * an exclamation mark or word an exclamation; else a command word a
   * command; else blank text is silence and anything else speech. Words are
   * looked for as substrings of the lowercased text.
   */
  function Classify(pc: PhraseClassifier, text: string): PhraseType
  {
    var lower := ToLower(text);
    if Contains(text, "?") || AnyIn(lower, pc.question_indicators) then Question
    else if Contains(text, "!") || AnyIn(lower, pc.exclamation_indicators) then Exclamation
    else if AnyIn(lower, pc.command_indicators) then Command
    else if Trim(text) == "" then Silence
    else Speech
  }

  /**
   * The order of precedence: a question mark always makes a question, an
   * exclamation mark an exclamation unless the text is a question, and a
   * command needs a command word and neither mark; noise and music are never
   * produced.
   */
  lemma ClassifyPrecedence(text: string)
    ensures Contains(text, "?") ==> Classify(NewClassifier(), text) == Question
    ensures Contains(text, "!") && Classify(NewClassifier(), text) != Question
            ==> Classify(NewClassifier(), text) == Exclamation
    ensures Classify(NewClassifier(), text) == Command
            ==> !Contains(text, "?") && !Contains(text, "!") && AnyIn(ToLower(text), NewClassifier().command_indicators)
    ensures Classify(NewClassifier(), text) !in {Noise, Music}
  {
  }

  /** With the standard indicators, a phrase is silence exactly when it is blank. */
  lemma SilenceIffBlank(text: string)
    ensures Classify(NewClassifier(), text) == Silence <==> Trim(text) == ""
  {
    TrimEmptyIffAllSpace(text);
    if Trim(text) == "" {
      BlankHasNoIndicator(text);
    }
  }

  lemma BlankHasNoIndicator(text: string)
    requires AllSpace(text)
    ensures !Contains(text, "?") && !Contains(text, "!")
    ensures !AnyIn(ToLower(text), NewClassifier().question_indicators)
    ensures !AnyIn(ToLower(text), NewClassifier().exclamation_indicators)
    ensures !AnyIn(ToLower(text), NewClassifier().command_indicators)
  {
    var pc := NewClassifier();
    var lower := ToLower(text);
    assert AllSpace(lower);
    NotContainsFirst(text, "?");
    NotContainsFirst(text, "!");
    NoneInSpace(lower, pc.question_indicators);
    NoneInSpace(lower, pc.exclamation_indicators);
    NoneInSpace(lower, pc.command_indicators);
  }

  /** Blank text holds no indicator that starts with a visible character. */
  lemma NoneInSpace(s: string, indicators: seq<string>)
    requires AllSpace(s)
    requires forall k :: 0 <= k < |indicators| ==> |indicators[k]| > 0 && !IsSpace(indicators[k][0])
    ensures !AnyIn(s, indicators)
  {
    forall k | 0 <= k < |indicators| ensures !Contains(s, indicators[k]) {
      NotContainsFirst(s, indicators[k]);
    }
  }

  /** The classifications the source's tests expect. */
  lemma ClassifyExamples(q: string, c: string, e: string, s: string)
    requires q == "What is your name?" && c == "Please start recording" && e == "That's amazing!"
    requires s == "Hello world"
    ensures Classify(NewClassifier(), q) == Question
    ensures Classify(NewClassifier(), c) == Command
    ensures Classify(NewClassifier(), e) == Exclamation
    ensures Classify(NewClassifier(), s) == Speech
  {
    var pc := NewClassifier();
    assert OccursAt(q, "?", 17);
    ContainsWitness(q, "?", 17);
    CommandExample(c, pc);
    ExclamationExample(e, pc);
    SpeechExample(s, pc);
  }

  lemma CommandExample(c: string, pc: PhraseClassifier)
    requires c == "Please start recording" && pc == NewClassifier()
    ensures Classify(pc, c) == Command
  {
    var lower := ToLower(c);
    CommandLower(c);
    assert OccursAt(lower, pc.command_indicators[0], 0);
    ContainsWitness(lower, pc.command_indicators[0], 0);
    NotContainsFirst(c, "?");
    NotContainsFirst(c, "!");
    CommandNoQuestionWord(lower);
    CommandNoExclamationWord(lower);
  }

  lemma CommandLower(c: string)
    requires c == "Please start recording"
    ensures ToLower(c) == "please start recording"
  {
  }

  lemma CommandNoQuestionWord(lower: string)
    requires lower == "please start recording"
    ensures !AnyIn(lower, NewClassifier().question_indicators)
  {
    AbsentLetter(lower, "what", 0);
    AbsentLetter(lower, "where", 0);
    AbsentLetter(lower, "when", 0);
    AbsentLetter(lower, "why", 0);
    AbsentLetter(lower, "how", 2);
    AbsentLetter(lower, "who", 0);
    AbsentLetter(lower, "which", 0);
    AbsentLetter(lower, "?", 0);
  }

  lemma CommandNoExclamationWord(lower: string)
    requires lower == "please start recording"
    ensures !AnyIn(lower, NewClassifier().exclamation_indicators)
  {
    AbsentLetter(lower, "!", 0);
    AbsentLetter(lower, "wow", 0);
    AbsentLetter(lower, "amazing", 1);
    AbsentLetter(lower, "incredible", 7);
    AbsentLetter(lower, "fantastic", 0);
  }

  lemma ExclamationExample(e: string, pc: PhraseClassifier)
    requires e == "That's amazing!" && pc == NewClassifier()
    ensures Classify(pc, e) == Exclamation
  {
    var lower := ToLower(e);
    assert lower == "that's amazing!";
    assert OccursAt(e, "!", 14);
    ContainsWitness(e, "!", 14);
    NotContainsFirst(e, "?");
    ExclamationNoQuestionWord(lower);
  }

  lemma ExclamationNoQuestionWord(lower: string)
    requires lower == "that's amazing!"
    ensures !AnyIn(lower, NewClassifier().question_indicators)
  {
    AbsentLetter(lower, "what", 0);
    AbsentLetter(lower, "where", 0);
    AbsentLetter(lower, "when", 0);
    AbsentLetter(lower, "why", 0);
    AbsentLetter(lower, "how", 2);
    AbsentLetter(lower, "who", 0);
    AbsentLetter(lower, "which", 0);
    AbsentLetter(lower, "?", 0);
  }

  lemma SpeechExample(s: string, pc: PhraseClassifier)
    requires s == "Hello world" && pc == NewClassifier()
    ensures Classify(pc, s) == Speech
  {
    var lower := ToLower(s);
    SpeechLower(s);
    NotContainsFirst(s, "?");
    NotContainsFirst(s, "!");
    SpeechNoQuestionWord(lower);
    SpeechNoExclamationWord(lower);
    SpeechNoCommandWord(lower);
    SpeechNotBlank(s);
  }

  lemma SpeechLower(s: string)
    requires s == "Hello world"
    ensures ToLower(s) == "hello world"
  {
  }

  lemma SpeechNotBlank(s: string)
    requires s == "Hello world"
    ensures Trim(s) != ""
  {
    TrimEmptyIffAllSpace(s);
    assert !IsSpace(s[0]);
  }

  lemma SpeechNoQuestionWord(lower: string)
    requires lower == "hello world"
    ensures !AnyIn(lower, NewClassifier().question_indicators)
  {
    AbsentLetter(lower, "what", 2);
    AbsentPair(lower, "where", 0);
    AbsentLetter(lower, "when", 3);
    AbsentLetter(lower, "why", 2);
    AbsentPair(lower, "how", 0);
    AbsentPair(lower, "who", 0);
    AbsentLetter(lower, "which", 2);
    AbsentLetter(lower, "?", 0);
  }

  lemma SpeechNoExclamationWord(lower: string)
    requires lower == "hello world"
    ensures !AnyIn(lower, NewClassifier().exclamation_indicators)
  {
    AbsentLetter(lower, "!", 0);
    AbsentPair(lower, "wow", 1);
    AbsentLetter(lower, "amazing", 0);
    AbsentLetter(lower, "incredible", 0);
    AbsentLetter(lower, "fantastic", 0);
  }

  lemma SpeechNoCommandWord(lower: string)
    requires lower == "hello world"
    ensures !AnyIn(lower, NewClassifier().command_indicators)
  {
    AbsentLetter(lower, "please", 0);
    AbsentLetter(lower, "start", 0);
    AbsentLetter(lower, "stop", 0);
    AbsentLetter(lower, "begin", 0);
    AbsentLetter(lower, "end", 1);
    AbsentPair(lower, "do", 0);
    AbsentLetter(lower, "make", 0);
    AbsentLetter(lower, "create", 0);
    AbsentLetter(lower, "delete", 4);
  }

  // ---------------------------------------------------------------------
  // Keyword extraction
  // ---------------------------------------------------------------------

  /** The stop words of `KeywordExtractor::new`, written as four displays so that membership unfolds quickly. */
  const StopWords: set<string> := StopWordsA + StopWordsB + StopWordsC + StopWordsD

  const StopWordsA: set<string> :=
    {"the", "a", "an", "and", "or", "but", "in", "on", "at", "to", "for", "of", "with", "by", "is", "are", "was"}
  const StopWordsB: set<string> :=
    {"were", "be", "been", "have", "has", "had", "do", "does", "did", "will", "would", "could", "should", "may"}
  const StopWordsC: set<string> :=
    {"might", "can", "this", "that", "these", "those", "i", "you", "he", "she", "it", "we", "they", "me", "him"}
  const StopWordsD: set<string> := {"her", "us", "them"}

  /** The words of at least `min` characters that are not stop words, in order. */
  function Qualifying(words: seq<string>, stop: set<string>, min: nat): seq<string>
    decreases |words|
  {
    if |words| == 0 then []
    else (if |words[0]| >= min && words[0] !in stop then [words[0]] else []) + Qualifying(words[1..], stop, min)
  }

  /** `Qualifying` keeps the qualifying words in their order and drops the others. */
  lemma {:induction false} QualifyingSpec(words: seq<string>, stop: set<string>, min: nat)
    ensures Subseq(Qualifying(words, stop, min), words)
    ensures forall w :: w in Qualifying(words, stop, min) <==> w in words && |w| >= min && w !in stop
    decreases |words|
  {
    if |words| > 0 {
      var x := words[0];
      var tail := words[1..];
      QualifyingSpec(tail, stop, min);
      assert words == [x] + tail;
      var q := Qualifying(tail, stop, min);
      SubseqCons(x, q, tail);
      if |x| >= min && x !in stop {
        assert Qualifying(words, stop, min) == [x] + q;
      } else {
        var none: seq<string> := [];
        assert none + q == q;
      }
    }
  }

  /** The lowercased words of the text that qualify as keywords. */
  function KeywordsOf(text: string, stop: set<string>, min: nat): seq<string>
  {
    Qualifying(SplitWhitespace(ToLower(text)), stop, min)
  }

  /**
   * The keywords of a phrase are at most `limit` lowercased words of the
   * text, in their order, each of at least `min` characters and not a stop
   * word.
   */
  lemma KeywordsShape(text: string, stop: set<string>, min: nat, limit: nat)
    ensures |Take(KeywordsOf(text, stop, min), limit)| <= limit
    ensures Subseq(Take(KeywordsOf(text, stop, min), limit), SplitWhitespace(ToLower(text)))
    ensures forall w :: w in Take(KeywordsOf(text, stop, min), limit) ==>
      |w| >= min && w !in stop && IsWord(w) && NoUpper(w)
  {
    var words := SplitWhitespace(ToLower(text));
    var ks := KeywordsOf(text, stop, min);
    var taken := Take(ks, limit);
    QualifyingSpec(words, stop, min);
    SubseqPrefix(ks, words, |taken|);
    SubseqMembers(taken, words);
    ToLowerNoUpper(text);
    SplitWhitespaceChars(ToLower(text), c => !IsUpper(c));
    forall w | w in taken ensures |w| >= min && w !in stop && IsWord(w) && NoUpper(w) {
      assert w in ks;
      var k :| 0 <= k < |words| && words[k] == w;
    }
  }

  /** The loop of `extract_keywords` that counts every qualifying word. */
  method BumpWords(m0: map<string, nat>, ws: seq<string>) returns (m: map<string, nat>)
    ensures m == BumpAll(m0, ws)
  {
    m := m0;
    for i := 0 to |ws|
      invariant m == BumpAll(m0, ws[..i])
    {
      assert ws[..i + 1][..i] == ws[..i];
      m := Bump(m, ws[i]);
    }
    assert ws[..|ws|] == ws;
  }

  /** `KeywordExtractor`: the stop words, the length bounds and the running frequency of every keyword. */
  class KeywordExtractor {
    const stop_words: set<string>
    var keyword_frequency: map<string, nat>
    const min_keyword_length: nat
    const max_keywords_per_phrase: nat

    /** `KeywordExtractor::new`. */
    constructor ()
      ensures stop_words == StopWords && keyword_frequency == map[]
      ensures min_keyword_length == 3 && max_keywords_per_phrase == 5
    {
      stop_words := StopWords;
      keyword_frequency := map[];
      min_keyword_length := 3;
      max_keywords_per_phrase := 5;
    }

    /**
     * `extract_keywords`: every qualifying word of the text is counted, and
     * the first `max_keywords_per_phrase` of them are returned.
     */
    method ExtractKeywords(text: string) returns (keywords: seq<string>)
      modifies this
      ensures keywords == Take(KeywordsOf(text, stop_words, min_keyword_length), max_keywords_per_phrase)
      ensures keyword_frequency == BumpAll(old(keyword_frequency), KeywordsOf(text, stop_words, min_keyword_length))
    {
      var words := KeywordsOf(text, stop_words, min_keyword_length);
      keyword_frequency := BumpWords(keyword_frequency, words);
      keywords := Take(words, max_keywords_per_phrase);
    }
  }

  /** After extracting from a text, each word's frequency has grown by its number of qualifying occurrences. */
  lemma FrequencyAfterExtraction(freq: map<string, nat>, text: string, stop: set<string>, min: nat, w: string)
    ensures CountOf(BumpAll(freq, KeywordsOf(text, stop, min)), w) == CountOf(freq, w) + Count(KeywordsOf(text, stop, min), w)
    ensures w in BumpAll(freq, KeywordsOf(text, stop, min)) <==> w in freq || (w in SplitWhitespace(ToLower(text)) && |w| >= min && w !in stop)
  {
    BumpAllCount(freq, KeywordsOf(text, stop, min), w);
    QualifyingSpec(SplitWhitespace(ToLower(text)), stop, min);
  }

  /** The keywords the source's test expects of its example sentence. */
  lemma KeywordExample(words: seq<string>, text: string)
    requires words == ["The", "meeting", "discussion", "about", "project", "management", "was", "very", "productive"]
    requires text == Join(words, " ")
    ensures Take(KeywordsOf(text, StopWords, 3), 5) == ["meeting", "discussion", "about", "project", "management"]
    ensures "the" !in Take(KeywordsOf(text, StopWords, 3), 5)
  {
    var lower := ["the", "meeting", "discussion", "about", "project", "management", "was", "very", "productive"];
    var kept := ["meeting", "discussion", "about", "project", "management", "very", "productive"];
    ExampleLower(words, lower);
    ExampleWords(lower);
    SplitWhitespaceJoin(lower);
    ExampleQualifying(lower);
    KeywordsVia(text, lower, kept);
    ExampleTake(kept);
  }

  lemma KeywordsVia(text: string, lower: seq<string>, kept: seq<string>)
    requires ToLower(text) == Join(lower, " ") && SplitWhitespace(Join(lower, " ")) == lower
    requires Qualifying(lower, StopWords, 3) == kept
    ensures KeywordsOf(text, StopWords, 3) == kept
  {
  }

  lemma ExampleTake(kept: seq<string>)
    requires kept == ["meeting", "discussion", "about", "project", "management", "very", "productive"]
    ensures Take(kept, 5) == ["meeting", "discussion", "about", "project", "management"]
    ensures "the" !in Take(kept, 5)
  {
  }

  lemma ExampleLower(words: seq<string>, lower: seq<string>)
    requires words == ["The", "meeting", "discussion", "about", "project", "management", "was", "very", "productive"]
    requires lower == ["the", "meeting", "discussion", "about", "project", "management", "was", "very", "productive"]
    ensures ToLower(Join(words, " ")) == Join(lower, " ")
  {
    var rest := words[1..];
    assert lower[1..] == rest;
    var tail := Join(rest, " ");
    assert Join(words, " ") == ("The" + " ") + tail;
    assert Join(lower, " ") == ("the" + " ") + tail;
    ToLowerAppend("The" + " ", tail);
    assert ToLower("The" + " ") == "the" + " ";
    JoinChars(rest, " ", c => !IsUpper(c));
    ToLowerIdentity(tail);
  }

  lemma ExampleWords(lower: seq<string>)
    requires lower == ["the", "meeting", "discussion", "about", "project", "management", "was", "very", "productive"]
    ensures forall k :: 0 <= k < |lower| ==> IsWord(lower[k])
  {
  }

  lemma ExampleQualifying(ws: seq<string>)
    requires ws == ["the", "meeting", "discussion", "about", "project", "management", "was", "very", "productive"]
    ensures Qualifying(ws, StopWords, 3) == ["meeting", "discussion", "about", "project", "management", "very", "productive"]
  {
    assert ws[1] !in StopWords && ws[2] !in StopWords && ws[4] !in StopWords && ws[5] !in StopWords
      && ws[8] !in StopWords by {
      LongNotStopWord(ws[1]);
      LongNotStopWord(ws[2]);
      LongNotStopWord(ws[4]);
      LongNotStopWord(ws[5]);
      LongNotStopWord(ws[8]);
    }
    assert ws[3] !in StopWords && ws[7] !in StopWords by {
      ShortNotStopWords(ws[3], ws[7]);
    }
    assert ws[0] in StopWords && ws[6] in StopWords by {
      assert ws[0] in StopWordsA && ws[6] in StopWordsA;
    }
    QualifyingExample(ws, StopWords);
  }

  lemma LongNotStopWord(w: string)
    requires |w| > 6
    ensures w !in StopWords
  {
    NotInStopWordsA(w);
    NotInStopWordsB(w);
    NotInStopWordsC(w);
    NotInStopWordsD(w);
  }

  /** The shapes of word the examples need to tell apart from every stop word. */
  predicate UnlikeStopWords(w: string)
  {
    |w| > 6 || (|w| == 5 && w[0] == 'a') || (|w| == 4 && w[0] == 'v')
  }

  lemma NotInStopWordsA(w: string)
    requires UnlikeStopWords(w)
    ensures w !in StopWordsA
  {
  }

  lemma NotInStopWordsB(w: string)
    requires UnlikeStopWords(w)
    ensures w !in StopWordsB
  {
  }

  lemma NotInStopWordsC(w: string)
    requires UnlikeStopWords(w)
    ensures w !in StopWordsC
  {
  }

  lemma NotInStopWordsD(w: string)
    requires UnlikeStopWords(w)
    ensures w !in StopWordsD
  {
  }

  lemma ShortNotStopWords(about: string, very: string)
    requires about == "about" && very == "very"
    ensures about !in StopWords && very !in StopWords
  {
    FiveLetterNotStopWord(about);
    FourLetterNotStopWord(very);
  }

  lemma FiveLetterNotStopWord(w: string)
    requires |w| == 5 && w[0] == 'a'
    ensures w !in StopWords
  {
    NotInStopWordsA(w);
    NotInStopWordsB(w);
    NotInStopWordsC(w);
    NotInStopWordsD(w);
  }

  lemma FourLetterNotStopWord(w: string)
    requires |w| == 4 && w[0] == 'v'
    ensures w !in StopWords
  {
    NotInStopWordsA(w);
    NotInStopWordsB(w);
    NotInStopWordsC(w);
    NotInStopWordsD(w);
  }

  /** Filtering nine words of which the first and the seventh are stop words. */
  lemma QualifyingExample(ws: seq<string>, stop: set<string>)
    requires |ws| == 9 && ws[0] in stop && ws[6] in stop
    requires |ws[1]| >= 3 && |ws[2]| >= 3 && |ws[3]| >= 3 && |ws[4]| >= 3 && |ws[5]| >= 3 && |ws[7]| >= 3 && |ws[8]| >= 3
    requires ws[1] !in stop && ws[2] !in stop && ws[3] !in stop && ws[4] !in stop && ws[5] !in stop
    requires ws[7] !in stop && ws[8] !in stop
    ensures Qualifying(ws, stop, 3) == [ws[1], ws[2], ws[3], ws[4], ws[5], ws[7], ws[8]]
  {
    assert Qualifying(ws[9..], stop, 3) == [];
    assert Qualifying(ws[8..], stop, 3) == [ws[8]];
    assert Qualifying(ws[7..], stop, 3) == [ws[7], ws[8]];
    assert Qualifying(ws[6..], stop, 3) == [ws[7], ws[8]];
    assert Qualifying(ws[5..], stop, 3) == [ws[5], ws[7], ws[8]];
    assert Qualifying(ws[4..], stop, 3) == [ws[4], ws[5], ws[7], ws[8]];
    assert Qualifying(ws[3..], stop, 3) == [ws[3], ws[4], ws[5], ws[7], ws[8]];
    assert Qualifying(ws[2..], stop, 3) == [ws[2], ws[3], ws[4], ws[5], ws[7], ws[8]];
    assert Qualifying(ws[1..], stop, 3) == [ws[1], ws[2], ws[3], ws[4], ws[5], ws[7], ws[8]];
  }

  // ---------------------------------------------------------------------
  // Speaker detection
  // ---------------------------------------------------------------------

  const FirstSpeaker: string := "Speaker_1"

  /** `SpeakerDetector`: only the current speaker is ever set. */
  class SpeakerDetector {
    var current_speaker: Option<string>
    const speaker_change_threshold: real

    predicate Valid()
      reads this
    {
      current_speaker == None || current_speaker == Some(FirstSpeaker)
    }

    /** `SpeakerDetector::new`. */
    constructor ()
      ensures Valid() && current_speaker == None && speaker_change_threshold == 0.7
    {
      current_speaker := None;
      speaker_change_threshold := 0.7;
    }

    /** `detect_speaker`: the first call sets the first speaker, and every call returns the current one. */
    method DetectSpeaker(text: string, volume: real, confidence: real) returns (speaker: Option<string>)
      modifies this
      ensures old(current_speaker).None? ==> speaker == Some(FirstSpeaker)
      ensures old(current_speaker).Some? ==> speaker == old(current_speaker)
      ensures current_speaker == speaker
      ensures old(Valid()) ==> Valid() && speaker == Some(FirstSpeaker)
    {
      if current_speaker.None? {
        current_speaker := Some(FirstSpeaker);
      }
      speaker := current_speaker;
    }
  }

  // ---------------------------------------------------------------------
  // Sentiment
  // ---------------------------------------------------------------------

  const PositiveWords: seq<string> := ["good", "great", "excellent", "happy", "love", "amazing"]
  const NegativeWords: seq<string> := ["bad", "terrible", "awful", "hate", "sad", "angry"]

  /** The number of words that are in the vocabulary. */
  function CountIn(words: seq<string>, vocabulary: seq<string>): nat
    decreases |words|
  {
    if |words| == 0 then 0
    else (if words[0] in vocabulary then 1 else 0) + CountIn(words[1..], vocabulary)
  }

  /** Two disjoint vocabularies together match at most every word once. */
  lemma {:induction false} CountInDisjoint(words: seq<string>, a: seq<string>, b: seq<string>)
    requires forall w :: w in a ==> w !in b
    ensures CountIn(words, a) + CountIn(words, b) <= |words|
    decreases |words|
  {
    if |words| > 0 {
      CountInDisjoint(words[1..], a, b);
    }
  }

  /**
   * `calculate_sentiment_static`: the shares of positive and negative words
   * among the lowercased words, the rest neutral; no words is neutral.
   */
  function Sentiment(text: string): SentimentScore
  {
    var words := SplitWhitespace(ToLower(text));
    if |words| == 0 then SentimentScore(0.0, 0.0, 1.0, 0.0)
    else
      var positive := CountIn(words, PositiveWords) as real / |words| as real;
      var negative := CountIn(words, NegativeWords) as real / |words| as real;
      SentimentScore(positive, negative, 1.0 - positive - negative, positive - negative)
  }

  /**
   * The three shares are fractions that add up to one, and the compound
   * score is their difference, between -1 and 1; blank text is neutral.
   */
  lemma SentimentSpec(text: string)
    ensures var r := Sentiment(text);
      0.0 <= r.positive && 0.0 <= r.negative && 0.0 <= r.neutral <= 1.0
      && r.positive + r.negative + r.neutral == 1.0
      && r.compound == r.positive - r.negative && -1.0 <= r.compound <= 1.0
    ensures AllSpace(text) ==> Sentiment(text) == SentimentScore(0.0, 0.0, 1.0, 0.0)
  {
    var words := SplitWhitespace(ToLower(text));
    if AllSpace(text) {
      assert AllSpace(ToLower(text));
      SplitWhitespaceEmptyIffAllSpace(ToLower(text));
    }
    if |words| > 0 {
      assert forall w :: w in PositiveWords ==> w !in NegativeWords;
      CountInDisjoint(words, PositiveWords, NegativeWords);
      var p := CountIn(words, PositiveWords);
      var n := CountIn(words, NegativeWords);
      RatioSum(p, n, |words|);
    }
  }

  lemma RatioSum(p: nat, n: nat, total: nat)
    requires 0 < total && p + n <= total
    ensures 0.0 <= p as real / total as real && 0.0 <= n as real / total as real
    ensures p as real / total as real + n as real / total as real <= 1.0
  {
    var t := total as real;
    assert p as real / t + n as real / t == (p + n) as real / t;
  }

  // ---------------------------------------------------------------------
  // Totals over the phrases of a session
  // ---------------------------------------------------------------------

  function SumWords(ps: seq<TranscriptPhrase>): nat
    decreases |ps|
  {
    if |ps| == 0 then 0 else SumWords(ps[..|ps| - 1]) + ps[|ps| - 1].word_count
  }

  function SumDurations(ps: seq<TranscriptPhrase>): nat
    decreases |ps|
  {
    if |ps| == 0 then 0 else SumDurations(ps[..|ps| - 1]) + ps[|ps| - 1].duration
  }

  function SumConfidence(ps: seq<TranscriptPhrase>): real
    decreases |ps|
  {
    if |ps| == 0 then 0.0 else SumConfidence(ps[..|ps| - 1]) + ps[|ps| - 1].confidence
  }

  function CountType(ps: seq<TranscriptPhrase>, t: PhraseType): nat
    decreases |ps|
  {
    if |ps| == 0 then 0 else CountType(ps[..|ps| - 1], t) + if ps[|ps| - 1].phrase_type == t then 1 else 0
  }

  /** The keywords of all phrases, in order. */
  function PhraseKeywords(ps: seq<TranscriptPhrase>): seq<string>
    decreases |ps|
  {
    if |ps| == 0 then [] else PhraseKeywords(ps[..|ps| - 1]) + ps[|ps| - 1].keywords
  }

  /** Each word lowercased. */
  function LowerWords(ws: seq<string>): (r: seq<string>)
    ensures |r| == |ws| && forall i :: 0 <= i < |ws| ==> r[i] == ToLower(ws[i])
  {
    seq(|ws|, i requires 0 <= i < |ws| => ToLower(ws[i]))
  }

  /** The lowercased words of all phrases, in order. */
  function SpokenWords(ps: seq<TranscriptPhrase>): seq<string>
    decreases |ps|
  {
    if |ps| == 0 then [] else SpokenWords(ps[..|ps| - 1]) + LowerWords(SplitWhitespace(ps[|ps| - 1].text))
  }

  /** A phrase has one type, so questions and commands together are at most all phrases. */
  lemma {:induction false} QuestionsAndCommands(ps: seq<TranscriptPhrase>)
    ensures CountType(ps, Question) + CountType(ps, Command) <= |ps|
    decreases |ps|
  {
    if |ps| > 0 {
      QuestionsAndCommands(ps[..|ps| - 1]);
    }
  }

  /** Confidences between 0 and 1 sum to at most the number of phrases. */
  lemma {:induction false} SumConfidenceBounds(ps: seq<TranscriptPhrase>)
    requires forall i :: 0 <= i < |ps| ==> 0.0 <= ps[i].confidence <= 1.0
    ensures 0.0 <= SumConfidence(ps) <= |ps| as real
    decreases |ps|
  {
    if |ps| > 0 {
      SumConfidenceBounds(ps[..|ps| - 1]);
    }
  }

  // ---------------------------------------------------------------------
  // Statistics
  // ---------------------------------------------------------------------

  /**
   * The silence share as the source computes it, in percent of the whole
   * seconds of the session: the `Duration` subtraction of the speaking time
   * from the session length panics (`None`) when the phrases' audio adds up
   * to more than the session lasted.
   */
  function SilencePercentageAsWritten(total: nat, speaking: nat): Option<real>
    requires total / 1000 > 0
  {
    if speaking > total then None
    else Some(((total - speaking) / 1000) as real / (total / 1000) as real * 100.0)
  }

  /** A ten-second phrase in a session that ended after one second. */
  lemma SilencePanicsWhenAudioOutlastsSession()
    ensures SilencePercentageAsWritten(1000, 10000) == None
  {
  }

  /** The silence share with the subtraction saturating at zero. */
  function SilencePercentage(total: nat, speaking: nat): real
    requires total / 1000 > 0
  {
    var silence := if speaking <= total then total - speaking else 0;
    (silence / 1000) as real / (total / 1000) as real * 100.0
  }

  /** The corrected share is a percentage, and agrees with the source wherever the source does not panic. */
  lemma SilencePercentageSpec(total: nat, speaking: nat)
    requires total / 1000 > 0
    ensures 0.0 <= SilencePercentage(total, speaking) <= 100.0
    ensures speaking <= total ==> SilencePercentageAsWritten(total, speaking) == Some(SilencePercentage(total, speaking))
    ensures speaking >= total ==> SilencePercentage(total, speaking) == 0.0
  {
    var silence := if speaking <= total then total - speaking else 0;
    assert silence / 1000 <= total / 1000;
    RatioBounds(silence / 1000, total / 1000);
  }

  /**
   * `update_session_statistics`: the counts and sums over the phrases; the
   * averages only when there are phrases, and the rates only when the
   * session lasted at least a second; everything else as it was.
   */
  function Statistics(prev: SessionStatistics, ps: seq<TranscriptPhrase>, speakers: nat, total: nat): SessionStatistics
  {
    var words := SumWords(ps);
    var speaking := SumDurations(ps);
    var secs := total / 1000;
    prev.(total_phrases := |ps|, total_words := words, total_speaking_time := speaking, speaker_count := speakers,
          question_count := CountType(ps, Question), command_count := CountType(ps, Command),
          average_phrase_length := if |ps| > 0 then words as real / |ps| as real else prev.average_phrase_length,
          average_confidence := if |ps| > 0 then SumConfidence(ps) / |ps| as real else prev.average_confidence,
          words_per_minute := if secs > 0 then words as real * 60.0 / secs as real else prev.words_per_minute,
          silence_percentage := if secs > 0 then SilencePercentage(total, speaking) else prev.silence_percentage)
  }

  /**
   * The statistics count the phrases, their words and speaking time and
   * their questions and commands; the averages are means over the phrases;
   * the silence share is a percentage; what is not recomputed is kept.
   */
  lemma StatisticsSpec(prev: SessionStatistics, ps: seq<TranscriptPhrase>, speakers: nat, total: nat)
    ensures var r := Statistics(prev, ps, speakers, total);
      r.total_phrases == |ps| && r.total_words == SumWords(ps) && r.total_speaking_time == SumDurations(ps)
      && r.speaker_count == speakers && r.question_count == CountType(ps, Question)
      && r.command_count == CountType(ps, Command) && r.question_count + r.command_count <= r.total_phrases
      && (|ps| > 0 ==> r.average_phrase_length * |ps| as real == SumWords(ps) as real
                       && r.average_confidence * |ps| as real == SumConfidence(ps))
      && (|ps| == 0 ==> r.average_phrase_length == prev.average_phrase_length && r.average_confidence == prev.average_confidence)
      && (total >= 1000 ==> 0.0 <= r.silence_percentage <= 100.0 && 0.0 <= r.words_per_minute)
      && (total < 1000 ==> r.words_per_minute == prev.words_per_minute && r.silence_percentage == prev.silence_percentage)
      && r.total_silence_time == prev.total_silence_time && r.interruption_count == prev.interruption_count
  {
    var r := Statistics(prev, ps, speakers, total);
    QuestionsAndCommands(ps);
    if |ps| > 0 {
      MeanTimesCount(SumWords(ps) as real, |ps| as real);
      MeanTimesCount(SumConfidence(ps), |ps| as real);
    }
    if total >= 1000 {
      SilencePercentageSpec(total, SumDurations(ps));
      assert 0.0 <= r.words_per_minute by {
        NonNegativeRate(SumWords(ps) as real * 60.0, (total / 1000) as real);
      }
    }
  }

  lemma MeanTimesCount(sum: real, n: real)
    requires n > 0.0
    ensures sum / n * n == sum
  {
  }

  lemma NonNegativeRate(x: real, y: real)
    requires x >= 0.0 && y > 0.0
    ensures x / y >= 0.0
  {
  }

  /** Recomputing the statistics of unchanged phrases changes nothing. */
  lemma StatisticsIdempotent(prev: SessionStatistics, ps: seq<TranscriptPhrase>, speakers: nat, total: nat)
    ensures Statistics(Statistics(prev, ps, speakers, total), ps, speakers, total) == Statistics(prev, ps, speakers, total)
  {
  }

  /**
   * Once there are phrases, the statistics of a session shorter than a
   * second depend only on the phrases and on the fields never recomputed.
   */
  lemma StatisticsForget(a: SessionStatistics, b: SessionStatistics, ps: seq<TranscriptPhrase>, speakers: nat, total: nat)
    requires |ps| > 0 && total < 1000
    requires a.total_silence_time == b.total_silence_time && a.interruption_count == b.interruption_count
    requires a.words_per_minute == b.words_per_minute && a.silence_percentage == b.silence_percentage
    ensures Statistics(a, ps, speakers, total) == Statistics(b, ps, speakers, total)
  {
  }

  // ---------------------------------------------------------------------
  // Speaker profiles
  // ---------------------------------------------------------------------

  /**
   * `update_speaker_profile` for one phrase: a new profile starts at the
   * phrase, the count, speaking time and running means grow by the phrase,
   * its lowercased words are counted and a question bumps the frequency.
   */
  function ProfileStep(existing: Option<SpeakerProfile>, id: string, p: TranscriptPhrase): SpeakerProfile
  {
    var base := if existing.Some? then existing.value
                else SpeakerProfile(id, None, DefaultPatterns(), 0, 0, 0.0, p.start_time, p.start_time);
    var n := base.phrase_count;
    var pat := base.speaking_patterns;
    base.(phrase_count := n + 1, total_speaking_time := base.total_speaking_time + p.duration,
          last_appearance := p.start_time,
          average_confidence := RunningMean(base.average_confidence, n, p.confidence),
          speaking_patterns := pat.(
            average_phrase_length := RunningMean(pat.average_phrase_length, n, p.word_count as real),
            common_words := BumpAll(pat.common_words, LowerWords(SplitWhitespace(p.text))),
            question_frequency := pat.question_frequency + if p.phrase_type == Question then 1.0 else 0.0))
  }

  /** `(mean * (count + 1 - 1) + x) / (count + 1)`: a mean of `count` values updated by one more. */
  function RunningMean(mean: real, count: nat, x: real): real
  {
    (mean * count as real + x) / (count + 1) as real
  }

  function Mean(sum: real, n: nat): real
    requires n > 0
  {
    sum / n as real
  }

  /** Updating the mean of `count` values by one more gives the mean of them all. */
  lemma RunningMeanStep(sum: real, count: nat, x: real)
    ensures count > 0 ==> RunningMean(Mean(sum, count), count, x) == Mean(sum + x, count + 1)
    ensures RunningMean(0.0, 0, x) == Mean(x, 1)
  {
    if count > 0 {
      assert sum / count as real * count as real == sum;
    }
  }

  /** The profile of a speaker who spoke every phrase of `ps`, in closed form. */
  function ProfileOf(id: string, ps: seq<TranscriptPhrase>): SpeakerProfile
    requires |ps| > 0
  {
    SpeakerProfile(id, None,
      SpeakingPatterns(Mean(SumWords(ps) as real, |ps|), 0.0, BumpAll(map[], SpokenWords(ps)), 1.0, 0.0,
                       CountType(ps, Question) as real),
      SumDurations(ps), |ps|, Mean(SumConfidence(ps), |ps|), ps[0].start_time, ps[|ps| - 1].start_time)
  }

  /** The profile before any phrase of `ps`, or after all of them. */
  function ProfileSoFar(id: string, ps: seq<TranscriptPhrase>): Option<SpeakerProfile>
  {
    if |ps| == 0 then None else Some(ProfileOf(id, ps))
  }

  /**
   * Updating the profile phrase by phrase gives the closed form: the count
   * of phrases, the total speaking time, the mean confidence and length,
   * every lowercased word counted, questions counted, and the first and
   * last appearance.
   */
  lemma ProfileStepClosed(id: string, ps: seq<TranscriptPhrase>, p: TranscriptPhrase)
    ensures ProfileStep(ProfileSoFar(id, ps), id, p) == ProfileOf(id, ps + [p])
  {
    var all := ps + [p];
    assert all[..|all| - 1] == ps && all[|all| - 1] == p;
    if |ps| == 0 {
      ProfileFirst(id, p, all);
    } else {
      assert all[0] == ps[0];
      ProfileNext(id, ps, p, all);
    }
  }

  lemma ProfileFirst(id: string, p: TranscriptPhrase, all: seq<TranscriptPhrase>)
    requires all == [p]
    ensures ProfileStep(None, id, p) == ProfileOf(id, all)
  {
    var none: seq<TranscriptPhrase> := [];
    assert all[..0] == none;
    var nowords: seq<string> := [];
    var words := LowerWords(SplitWhitespace(p.text));
    assert SpokenWords(all) == nowords + words;
    assert nowords + words == words;
    RunningMeanStep(0.0, 0, p.confidence);
    RunningMeanStep(0.0, 0, p.word_count as real);
    assert all[..|all| - 1] == none;
    assert SumConfidence(all) == 0.0 + p.confidence;
    assert SumWords(all) as real == 0.0 + p.word_count as real;
    assert SumDurations(all) == 0 + p.duration;
    assert CountType(all, Question) == 0 + if p.phrase_type == Question then 1 else 0;
  }

  lemma ProfileNext(id: string, ps: seq<TranscriptPhrase>, p: TranscriptPhrase, all: seq<TranscriptPhrase>)
    requires |ps| > 0 && all == ps + [p] && all[..|all| - 1] == ps && all[0] == ps[0]
    ensures ProfileStep(Some(ProfileOf(id, ps)), id, p) == ProfileOf(id, all)
  {
    var words := LowerWords(SplitWhitespace(p.text));
    BumpAllAppend(map[], SpokenWords(ps), words);
    RunningMeanStep(SumConfidence(ps), |ps|, p.confidence);
    RunningMeanStep(SumWords(ps) as real, |ps|, p.word_count as real);
    assert SumWords(all) as real == SumWords(ps) as real + p.word_count as real;
  }

  /** `update_speaker_profile`, whose loop counts the lowercased words of the phrase. */
  method UpdateSpeakerProfile(speakers: map<string, SpeakerProfile>, id: string, p: TranscriptPhrase)
    returns (r: map<string, SpeakerProfile>)
    ensures r == speakers[id := ProfileStep(if id in speakers then Some(speakers[id]) else None, id, p)]
  {
    var profile := ProfileStep(if id in speakers then Some(speakers[id]) else None, id, p);
    var base := if id in speakers then speakers[id].speaking_patterns.common_words else map[];
    var common := BumpLowered(base, SplitWhitespace(p.text));
    r := speakers[id := profile.(speaking_patterns := profile.speaking_patterns.(common_words := common))];
  }

  /** The loop over the words of a phrase, counting each lowercased. */
  method BumpLowered(m0: map<string, nat>, ws: seq<string>) returns (m: map<string, nat>)
    ensures m == BumpAll(m0, LowerWords(ws))
  {
    m := m0;
    for i := 0 to |ws|
      invariant m == BumpAll(m0, LowerWords(ws[..i]))
    {
      assert LowerWords(ws[..i + 1])[..i] == LowerWords(ws[..i]);
      m := Bump(m, ToLower(ws[i]));
    }
    assert ws[..|ws|] == ws;
  }

  // ---------------------------------------------------------------------
  // Sessions
  // ---------------------------------------------------------------------

  /** A session as `start_session` opens it: no phrases, no speakers, default statistics, English. */
  function NewSession(id: Uuid, name: string, now: int): SessionTranscript
  {
    SessionTranscript(id, name, now, None, 0, [], map[], DefaultStatistics(), map[], [], None, "en")
  }

  /** The speakers of a session all of whose phrases came from the first speaker. */
  function SpeakersOf(ps: seq<TranscriptPhrase>): map<string, SpeakerProfile>
  {
    if |ps| == 0 then map[] else map[FirstSpeaker := ProfileOf(FirstSpeaker, ps)]
  }

  /**
   * What an active session keeps: it has not ended; its phrases are its own
   * and the first speaker's; its keyword counts count the phrases' keywords;
   * its one speaker profile sums up its phrases; its statistics are those of
   * its phrases.
   */
  predicate SessionValid(s: SessionTranscript)
  {
    s.end_time == None && s.total_duration == 0
    && (forall i :: 0 <= i < |s.phrases| ==> s.phrases[i].session_id == s.session_id)
    && (forall i :: 0 <= i < |s.phrases| ==> s.phrases[i].speaker_id == Some(FirstSpeaker))
    && s.keywords == BumpAll(map[], PhraseKeywords(s.phrases))
    && s.speakers == SpeakersOf(s.phrases)
    && s.session_statistics == Statistics(DefaultStatistics(), s.phrases, |s.speakers|, 0)
  }

  /** A new session is valid and empty. */
  lemma NewSessionValid(id: Uuid, name: string, now: int)
    ensures SessionValid(NewSession(id, name, now))
    ensures NewSession(id, name, now).phrases == [] && NewSession(id, name, now).session_id == id
  {
    var none: seq<string> := [];
    assert PhraseKeywords([]) == none;
  }

  /**
   * The phrase `add_phrase` builds: its duration is the audio segment's
   * length, its type the classifier's, its keywords the extractor's (when
   * enabled), its speaker the first, its sentiment computed when enabled.
   */
  function NewPhrase(s: SessionTranscript, config: TrackerConfig, text: string, confidence: real, audio_start: nat,
                     audio_end: nat, volume: real, id: Uuid, now: int): TranscriptPhrase
    requires audio_start <= audio_end
  {
    TranscriptPhrase(id, s.session_id, text, now, now, audio_end - audio_start, confidence, Some(FirstSpeaker),
                     Some(s.language), |SplitWhitespace(text)|, true, audio_start, audio_end, volume, 0.1,
                     Classify(NewClassifier(), text),
                     if config.keyword_extraction_enabled then Take(KeywordsOf(text, StopWords, 3), 5) else [],
                     if config.sentiment_analysis_enabled then Some(Sentiment(text)) else None)
  }

  /**
   * The session after `add_phrase` appended `p`: its keywords counted, its
   * speaker's profile updated and the statistics recomputed.
   */
  function WithPhrase(s: SessionTranscript, p: TranscriptPhrase): SessionTranscript
  {
    var phrases := s.phrases + [p];
    var speakers := SpeakersAfter(s.speakers, p);
    s.(phrases := phrases, keywords := BumpAll(s.keywords, p.keywords), speakers := speakers,
       session_statistics := Statistics(s.session_statistics, phrases, |speakers|, s.total_duration))
  }

  /** The speakers after a phrase: its speaker's profile updated, if it has a speaker. */
  function SpeakersAfter(speakers: map<string, SpeakerProfile>, p: TranscriptPhrase): map<string, SpeakerProfile>
  {
    if p.speaker_id.Some?
    then speakers[p.speaker_id.value := ProfileStep(
           if p.speaker_id.value in speakers then Some(speakers[p.speaker_id.value]) else None, p.speaker_id.value, p)]
    else speakers
  }

  /** Keywords of the phrases and one more phrase. */
  lemma PhraseKeywordsSnoc(ps: seq<TranscriptPhrase>, p: TranscriptPhrase)
    ensures PhraseKeywords(ps + [p]) == PhraseKeywords(ps) + p.keywords
  {
    assert (ps + [p])[..|ps|] == ps;
  }

  /**
   * Appending a phrase of the session's own, from the first speaker, keeps
   * the session valid: one more phrase, its keywords counted, the profile
   * and statistics those of all phrases.
   */
  lemma WithPhraseValid(s: SessionTranscript, p: TranscriptPhrase)
    requires SessionValid(s) && p.session_id == s.session_id && p.speaker_id == Some(FirstSpeaker)
    ensures SessionValid(WithPhrase(s, p))
    ensures WithPhrase(s, p).phrases == s.phrases + [p]
    ensures forall k :: CountOf(WithPhrase(s, p).keywords, k) == CountOf(s.keywords, k) + Count(p.keywords, k)
  {
    var phrases := s.phrases + [p];
    var speakers := SpeakersAfter(s.speakers, p);
    var keywords := BumpAll(s.keywords, p.keywords);
    var stats := Statistics(s.session_statistics, phrases, |speakers|, s.total_duration);
    assert WithPhrase(s, p) == s.(phrases := phrases, keywords := keywords, speakers := speakers, session_statistics := stats);
    KeywordsAfter(s.phrases, s.keywords, p);
    SpeakersAfterClosed(s.phrases, s.speakers, p);
    StatisticsForget(s.session_statistics, DefaultStatistics(), phrases, 1, 0);
    PhrasesAfter(s.phrases, p, s.session_id);
  }

  lemma KeywordsAfter(ps: seq<TranscriptPhrase>, keywords: map<string, nat>, p: TranscriptPhrase)
    requires keywords == BumpAll(map[], PhraseKeywords(ps))
    ensures BumpAll(keywords, p.keywords) == BumpAll(map[], PhraseKeywords(ps + [p]))
    ensures forall k :: CountOf(BumpAll(keywords, p.keywords), k) == CountOf(keywords, k) + Count(p.keywords, k)
  {
    PhraseKeywordsSnoc(ps, p);
    BumpAllAppend(map[], PhraseKeywords(ps), p.keywords);
    forall k ensures CountOf(BumpAll(keywords, p.keywords), k) == CountOf(keywords, k) + Count(p.keywords, k) {
      BumpAllCount(keywords, p.keywords, k);
    }
  }

  lemma SpeakersAfterClosed(ps: seq<TranscriptPhrase>, speakers: map<string, SpeakerProfile>, p: TranscriptPhrase)
    requires speakers == SpeakersOf(ps) && p.speaker_id == Some(FirstSpeaker)
    ensures SpeakersAfter(speakers, p) == SpeakersOf(ps + [p]) && |SpeakersAfter(speakers, p)| == 1
  {
    ProfileStepClosed(FirstSpeaker, ps, p);
    assert (if FirstSpeaker in speakers then Some(speakers[FirstSpeaker]) else None) == ProfileSoFar(FirstSpeaker, ps);
  }

  lemma PhrasesAfter(ps: seq<TranscriptPhrase>, p: TranscriptPhrase, id: Uuid)
    requires forall i :: 0 <= i < |ps| ==> ps[i].session_id == id
    requires forall i :: 0 <= i < |ps| ==> ps[i].speaker_id == Some(FirstSpeaker)
    requires p.session_id == id && p.speaker_id == Some(FirstSpeaker)
    ensures forall i :: 0 <= i < |ps + [p]| ==> (ps + [p])[i].session_id == id
    ensures forall i :: 0 <= i < |ps + [p]| ==> (ps + [p])[i].speaker_id == Some(FirstSpeaker)
  {
  }

  /**
   * The session `end_current_session` returns: ended at `now`, lasting
   * from its start to `now` (zero if the clock went back), with final
   * statistics over that length and, when summarisation is on, a summary.
   */
  function Ended(s: SessionTranscript, now: int, auto_summarization: bool, summarize: SessionTranscript -> string)
    : SessionTranscript
  {
    var total := if now >= s.start_time then now - s.start_time else 0;
    var timed := s.(end_time := Some(now), total_duration := total);
    var final := timed.(session_statistics := Statistics(timed.session_statistics, timed.phrases, |timed.speakers|, total));
    if auto_summarization then final.(summary := Some(summarize(final))) else final
  }

  /**
   * `end_current_session` as the source computes it: the final statistics
   * update panics (`None`) when the session lasted at least a second and
   * its phrases' audio adds up to more than its length.
   */
  function EndedAsWritten(s: SessionTranscript, now: int, auto_summarization: bool, summarize: SessionTranscript -> string)
    : (r: Option<SessionTranscript>)
  {
    var total := if now >= s.start_time then now - s.start_time else 0;
    if total / 1000 > 0 && SilencePercentageAsWritten(total, SumDurations(s.phrases)).None? then None
    else Some(Ended(s, now, auto_summarization, summarize))
  }

  /**
   * The source's ending panics exactly when the audio outlasts a session of
   * at least a second; otherwise it is the corrected ending.
   */
  lemma EndedAsWrittenSpec(s: SessionTranscript, now: int, auto_summarization: bool, summarize: SessionTranscript -> string)
    ensures var total := if now >= s.start_time then now - s.start_time else 0;
      var r := EndedAsWritten(s, now, auto_summarization, summarize);
      (r.None? <==> total >= 1000 && SumDurations(s.phrases) > total)
      && (r.Some? ==> r.value == Ended(s, now, auto_summarization, summarize))
      && (r.Some? && total >= 1000 ==>
            r.value.session_statistics.silence_percentage
            == SilencePercentageAsWritten(total, SumDurations(s.phrases)).value)
  {
    var total := if now >= s.start_time then now - s.start_time else 0;
    if total >= 1000 {
      SilencePercentageSpec(total, SumDurations(s.phrases));
    }
  }

  /**
   * The final statistics of a valid session count its phrases, words,
   * questions and commands and its one speaker (if it spoke), and its
   * silence share is a percentage.
   */
  lemma EndedSpec(s: SessionTranscript, now: int, auto_summarization: bool, summarize: SessionTranscript -> string)
    requires SessionValid(s)
    ensures var e := Ended(s, now, auto_summarization, summarize);
      e.end_time == Some(now) && e.phrases == s.phrases && e.session_id == s.session_id
      && e.total_duration == (if now >= s.start_time then now - s.start_time else 0)
      && e.session_statistics.total_phrases == |s.phrases|
      && e.session_statistics.total_words == SumWords(s.phrases)
      && e.session_statistics.question_count == CountType(s.phrases, Question)
      && e.session_statistics.command_count == CountType(s.phrases, Command)
      && e.session_statistics.speaker_count == (if |s.phrases| == 0 then 0 else 1)
      && 0.0 <= e.session_statistics.silence_percentage <= 100.0
      && (e.summary.Some? <==> auto_summarization || s.summary.Some?)
  {
    var total := if now >= s.start_time then now - s.start_time else 0;
    StatisticsSpec(s.session_statistics, s.phrases, |s.speakers|, total);
    StatisticsSpec(DefaultStatistics(), s.phrases, |s.speakers|, 0);
  }

  // ---------------------------------------------------------------------
  // The tracker
  // ---------------------------------------------------------------------

  /**
   * `SessionTranscriptTracker`: at most one active session, the final
   * statistics of ended sessions by id, and its helpers. The summary text
   * is produced by `summarize`.
   */
  class SessionTranscriptTracker {
    const config: TrackerConfig
    const summarize: SessionTranscript -> string
    const speaker_detector: SpeakerDetector
    const keyword_extractor: KeywordExtractor
    const phrase_classifier: PhraseClassifier
    var current_session: Option<SessionTranscript>
    var session_stats: map<Uuid, SessionStatistics>
    var session_start: Option<int>

    predicate Valid()
      reads this, speaker_detector
    {
      speaker_detector.Valid() && phrase_classifier == NewClassifier()
      && keyword_extractor.stop_words == StopWords && keyword_extractor.min_keyword_length == 3
      && keyword_extractor.max_keywords_per_phrase == 5
      && (current_session.Some? ==> SessionValid(current_session.value))
    }

    /** `SessionTranscriptTracker::new`: no session and no statistics yet. */
    constructor (config: TrackerConfig, summarize: SessionTranscript -> string)
      ensures Valid() && this.config == config && this.summarize == summarize
      ensures current_session == None && session_stats == map[] && session_start == None
      ensures fresh(speaker_detector) && fresh(keyword_extractor)
    {
      this.config := config;
      this.summarize := summarize;
      speaker_detector := new SpeakerDetector();
      keyword_extractor := new KeywordExtractor();
      phrase_classifier := NewClassifier();
      current_session := None;
      session_stats := map[];
      session_start := None;
    }

    /** `get_current_session`. */
    function GetCurrentSession(): (r: Option<SessionTranscript>)
      reads this
      ensures r == current_session
    {
      current_session
    }

    /** `get_session_statistics`: the final statistics recorded for an ended session. */
    function GetSessionStatistics(id: Uuid): (r: Option<SessionStatistics>)
      reads this
      ensures r.Some? <==> id in session_stats
      ensures r.Some? ==> r.value == session_stats[id]
    {
      if id in session_stats then Some(session_stats[id]) else None
    }

    /**
     * `end_current_session`: nothing without an active session; otherwise
     * the session ends at `now`, its final statistics are recorded under its
     * id and it is returned.
     */
    method EndCurrentSession(now: int) returns (r: Option<SessionTranscript>, panicked: bool)
      requires Valid()
      modifies this
      ensures Valid() && current_session == None && session_start == old(session_start)
      ensures old(current_session).None? ==> r == None && !panicked && session_stats == old(session_stats)
      ensures old(current_session).Some? ==>
        var e := EndedAsWritten(old(current_session).value, now, config.auto_summarization, summarize);
        && (panicked <==> e.None?)
        && (panicked ==> r == None && session_stats == old(session_stats))
        && (!panicked ==> r == e && session_stats == old(session_stats)[r.value.session_id := r.value.session_statistics])
    {
      panicked := false;
      if current_session.None? {
        return None, false;
      }
      var ended := EndedAsWritten(current_session.value, now, config.auto_summarization, summarize);
      // The session has been taken out before the statistics update panics.
      current_session := None;
      if ended.None? {
        return None, true;
      }
      var session := ended.value;
      session_stats := session_stats[session.session_id := session.session_statistics];
      r := Some(session);
    }

    /**
     * `start_session`: an active session is ended first (its statistics
     * recorded); then the new session, empty, is the current one.
     */
    method StartSession(id: Uuid, name: string, now: int) returns (r: Result<(), string>, panicked: bool)
      requires Valid()
      modifies this
      ensures Valid()
      ensures panicked <==>
        old(current_session).Some? && EndedAsWritten(old(current_session).value, now, config.auto_summarization, summarize).None?
      ensures panicked ==> current_session == None && session_stats == old(session_stats) && session_start == old(session_start)
      ensures !panicked ==> r == Ok(()) && current_session == Some(NewSession(id, name, now)) && session_start == Some(now)
      ensures old(current_session).None? ==> session_stats == old(session_stats)
      ensures old(current_session).Some? && !panicked ==>
        session_stats == old(session_stats)[old(current_session).value.session_id :=
          Ended(old(current_session).value, now, config.auto_summarization, summarize).session_statistics]
    {
      r, panicked := Ok(()), false;
      if current_session.Some? {
        var _, p := EndCurrentSession(now);
        if p {
          return r, true;
        }
      }
      NewSessionValid(id, name, now);
      session_start := Some(now);
      current_session := Some(NewSession(id, name, now));
      r := Ok(());
    }

    /**
     * `add_phrase`: with no active session it fails and changes nothing;
     * otherwise it appends the phrase built from the text and its audio
     * segment, counts its keywords in the session and in the extractor,
     * updates the speaker's profile and the statistics, and returns the
     * phrase's id. The source panics on a segment that ends before it starts.
     */
    method AddPhrase(text: string, confidence: real, audio_start: nat, audio_end: nat, volume: real,
                     phrase_id: Uuid, now: int) returns (r: Result<Uuid, string>)
      requires Valid() && audio_start <= audio_end
      modifies this, speaker_detector, keyword_extractor
      ensures Valid() && session_stats == old(session_stats) && session_start == old(session_start)
      ensures old(current_session).None? ==>
        r == Err("No active session") && current_session == None
        && keyword_extractor.keyword_frequency == old(keyword_extractor.keyword_frequency)
      ensures old(current_session).Some? ==>
        r == Ok(phrase_id)
        && current_session == Some(WithPhrase(old(current_session).value,
             NewPhrase(old(current_session).value, config, text, confidence, audio_start, audio_end, volume, phrase_id, now)))
        && keyword_extractor.keyword_frequency ==
             (if config.keyword_extraction_enabled
              then BumpAll(old(keyword_extractor.keyword_frequency), KeywordsOf(text, StopWords, 3))
              else old(keyword_extractor.keyword_frequency))
    {
      if current_session.None? {
        return Err("No active session");
      }
      var session := current_session.value;
      var phrase := BuildPhrase(session, text, confidence, audio_start, audio_end, volume, phrase_id, now);
      var updated := AppendPhrase(session, phrase);
      WithPhraseValid(session, phrase);
      current_session := Some(updated);
      r := Ok(phrase_id);
    }

    /** The phrase-building half of `add_phrase`: classify, extract keywords, detect the speaker, score sentiment. */
    method BuildPhrase(session: SessionTranscript, text: string, confidence: real, audio_start: nat, audio_end: nat,
                       volume: real, phrase_id: Uuid, now: int) returns (phrase: TranscriptPhrase)
      requires Valid() && audio_start <= audio_end
      modifies speaker_detector, keyword_extractor
      ensures Valid()
      ensures phrase == NewPhrase(session, config, text, confidence, audio_start, audio_end, volume, phrase_id, now)
      ensures keyword_extractor.keyword_frequency ==
        (if config.keyword_extraction_enabled
         then BumpAll(old(keyword_extractor.keyword_frequency), KeywordsOf(text, StopWords, 3))
         else old(keyword_extractor.keyword_frequency))
    {
      var duration := audio_end - audio_start;
      var phrase_type := Classify(phrase_classifier, text);
      var keywords: seq<string> := [];
      if config.keyword_extraction_enabled {
        keywords := keyword_extractor.ExtractKeywords(text);
      }
      var speaker_id := speaker_detector.DetectSpeaker(text, volume, confidence);
      var sentiment := if config.sentiment_analysis_enabled then Some(Sentiment(text)) else None;
      phrase := TranscriptPhrase(phrase_id, session.session_id, text, now, now, duration, confidence, speaker_id,
                                 Some(session.language), |SplitWhitespace(text)|, true, audio_start, audio_end,
                                 volume, 0.1, phrase_type, keywords, sentiment);
    }
  }

  /** The session half of `add_phrase`: count the keywords, append, update the speaker and the statistics. */
  method AppendPhrase(session: SessionTranscript, phrase: TranscriptPhrase) returns (updated: SessionTranscript)
    ensures updated == WithPhrase(session, phrase)
  {
    var session_keywords := BumpWords(session.keywords, phrase.keywords);
    updated := session.(phrases := session.phrases + [phrase], keywords := session_keywords);
    if phrase.speaker_id.Some? {
      var speakers := UpdateSpeakerProfile(updated.speakers, phrase.speaker_id.value, phrase);
      updated := updated.(speakers := speakers);
    }
    updated := updated.(session_statistics := Statistics(updated.session_statistics, updated.phrases,
                                                          |updated.speakers|, updated.total_duration));
  }

  // ---------------------------------------------------------------------
  // Scenarios of the source's tests
  // ---------------------------------------------------------------------

  /** A new tracker has no current session. */
  method TrackerCreation(summarize: SessionTranscript -> string) returns (session: Option<SessionTranscript>)
    ensures session == None
  {
    var tracker := new SessionTranscriptTracker(DefaultTrackerConfig(), summarize);
    session := tracker.GetCurrentSession();
  }

  /** Starting a session succeeds and leaves an empty current session. */
  method SessionStart(id: Uuid, now: int, summarize: SessionTranscript -> string)
    returns (r: Result<(), string>, session: Option<SessionTranscript>)
    ensures r.Ok? && session.Some? && session.value.session_id == id && session.value.phrases == []
  {
    var tracker := new SessionTranscriptTracker(DefaultTrackerConfig(), summarize);
    var panicked;
    r, panicked := tracker.StartSession(id, "Test Session", now);
    session := tracker.GetCurrentSession();
  }

  /**
   * A question added to a fresh session and the session ended a minute
   * later: the recorded statistics count one phrase, one question and one
   * speaker.
   */
  method QuestionSession(id: Uuid, phrase_id: Uuid, text: string, summarize: SessionTranscript -> string)
    returns (added: Result<Uuid, string>, stats: Option<SessionStatistics>)
    requires text == "What is your name?"
    ensures added == Ok(phrase_id)
    ensures stats.Some? && stats.value.total_phrases == 1 && stats.value.question_count == 1
    ensures stats.value.command_count == 0 && stats.value.speaker_count == 1
  {
    var tracker := new SessionTranscriptTracker(DefaultTrackerConfig(), summarize);
    var _, _ := tracker.StartSession(id, "Test Session", 0);
    added := tracker.AddPhrase(text, 0.9, 0, 2000, 0.5, phrase_id, 1000);
    ghost var s := tracker.current_session.value;
    ClassifyExamples(text, "Please start recording", "That's amazing!", "Hello world");
    assert s.phrases == [NewPhrase(NewSession(id, "Test Session", 0), DefaultTrackerConfig(), text, 0.9, 0, 2000, 0.5,
                                   phrase_id, 1000)];
    OneDuration(s.phrases, 2000);
    EndedAsWrittenSpec(s, 60000, false, summarize);
    var _, _ := tracker.EndCurrentSession(60000);
    EndedSpec(s, 60000, false, summarize);
    OneQuestion(s.phrases);
    stats := tracker.GetSessionStatistics(id);
  }

  lemma OneQuestion(ps: seq<TranscriptPhrase>)
    requires |ps| == 1 && ps[0].phrase_type == Question
    ensures CountType(ps, Question) == 1 && CountType(ps, Command) == 0
  {
    assert ps[..0] == [];
  }

  /**
   * A ten-second phrase in a session ended one second after it started:
   * the source's final statistics update panics, leaving no current
   * session and no recorded statistics; the corrected ending records no
   * silence.
   */
  method AudioOutlastsSession(id: Uuid, phrase_id: Uuid, summarize: SessionTranscript -> string)
    returns (panicked: bool, stats: Option<SessionStatistics>, corrected: SessionStatistics)
    ensures panicked && stats == None
    ensures corrected.total_speaking_time == 10000 && corrected.silence_percentage == 0.0
  {
    var tracker := new SessionTranscriptTracker(DefaultTrackerConfig(), summarize);
    var _, _ := tracker.StartSession(id, "Test Session", 0);
    var _ := tracker.AddPhrase("Hello world", 0.9, 0, 10000, 0.5, phrase_id, 500);
    var s := tracker.current_session.value;
    OneDuration(s.phrases, 10000);
    EndedAsWrittenSpec(s, 1000, false, summarize);
    corrected := Ended(s, 1000, false, summarize).session_statistics;
    SilencePercentageSpec(1000, 10000);
    var _, p := tracker.EndCurrentSession(1000);
    panicked := p;
    stats := tracker.GetSessionStatistics(id);
  }

  lemma OneDuration(ps: seq<TranscriptPhrase>, d: nat)
    requires |ps| == 1 && ps[0].duration == d
    ensures SumDurations(ps) == d
  {
    assert ps[..0] == [];
  }
}
