/**
 * Duplicate detection for transcripts: text normalisation, the content
 * hash (with the standard hasher left uninterpreted), the Levenshtein,
 * n-gram Jaccard and combined similarity measures, merging of similar
 * transcripts, and the deduplicator with its exact-hash cache, its window
 * of recent transcripts and its statistics.
 */
module Deduplication {
  import opened Common
  import opened TranscriptTypes

  // ---------------------------------------------------------------------
  // Normalisation
  // ---------------------------------------------------------------------

  /** The characters normalisation keeps. */
  predicate KeepForNormalize(c: char) { IsAlnum(c) || IsSpace(c) }

  /** The characters of the text that normalisation keeps, in order. */
  function KeepAlnumSpace(s: string): (r: string)
    ensures |r| <= |s|
    ensures forall i :: 0 <= i < |r| ==> KeepForNormalize(r[i])
  {
    if |s| == 0 then "" else (if KeepForNormalize(s[0]) then [s[0]] else "") + KeepAlnumSpace(s[1..])
  }

  lemma {:induction false} KeepAllKept(s: string)
    requires forall i :: 0 <= i < |s| ==> KeepForNormalize(s[i])
    ensures KeepAlnumSpace(s) == s
    decreases |s|
  {
    if |s| > 0 {
      KeepAllKept(s[1..]);
    }
  }

  lemma {:induction false} KeepAppend(a: string, b: string)
    ensures KeepAlnumSpace(a + b) == KeepAlnumSpace(a) + KeepAlnumSpace(b)
    decreases |a|
  {
    if |a| > 0 {
      KeepAppend(a[1..], b);
      assert (a + b)[1..] == a[1..] + b;
    } else {
      assert a + b == b;
    }
  }

  /** Kept characters come from the text: none is upper case when the text has none. */
  lemma {:induction false} KeepNoUpper(s: string)
    requires NoUpper(s)
    ensures NoUpper(KeepAlnumSpace(s))
    decreases |s|
  {
    if |s| > 0 {
      KeepNoUpper(s[1..]);
    }
  }

  /**
   * `normalize_text`: lowercase, drop every character that is neither
   * alphanumeric nor whitespace, and rejoin the words with single spaces.
   */
  function NormalizeText(text: string): string
  {
    Join(SplitWhitespace(KeepAlnumSpace(ToLower(text))), " ")
  }

  /** A character normalised text may hold. */
  predicate NormalChar(c: char) { (IsAlnum(c) && !IsUpper(c)) || c == ' ' }

  /**
   * Normalised text is lowercase alphanumeric words separated by single
   * spaces: it is the words of the filtered text joined by " ".
   */
  lemma NormalizeShape(text: string)
    ensures forall i :: 0 <= i < |NormalizeText(text)| ==> NormalChar(NormalizeText(text)[i])
    ensures forall k :: 0 <= k < |SplitWhitespace(KeepAlnumSpace(ToLower(text)))| ==>
      IsWord(SplitWhitespace(KeepAlnumSpace(ToLower(text)))[k])
  {
    var lowered := ToLower(text);
    var f := KeepAlnumSpace(lowered);
    var words := SplitWhitespace(f);
    var P := (c: char) => KeepForNormalize(c) && !IsUpper(c);
    ToLowerNoUpper(text);
    KeepNoUpper(lowered);
    assert forall i :: 0 <= i < |f| ==> P(f[i]);
    SplitWhitespaceChars(f, P);
    assert forall k, j :: 0 <= k < |words| && 0 <= j < |words[k]| ==> NormalChar(words[k][j]) by {
      forall k, j | 0 <= k < |words| && 0 <= j < |words[k]| ensures NormalChar(words[k][j]) {
        assert IsWord(words[k]);
        assert P(words[k][j]) && !IsSpace(words[k][j]);
      }
    }
    JoinChars(words, " ", NormalChar);
  }

  /** Normalising twice is normalising once. */
  lemma NormalizeIdempotent(text: string)
    ensures NormalizeText(NormalizeText(text)) == NormalizeText(text)
  {
    var words := SplitWhitespace(KeepAlnumSpace(ToLower(text)));
    var n := NormalizeText(text);
    assert n == Join(words, " ");
    NormalizeShape(text);
    assert NoUpper(n);
    ToLowerIdentity(n);
    assert forall i :: 0 <= i < |n| ==> KeepForNormalize(n[i]);
    KeepAllKept(n);
    SplitWhitespaceJoin(words);
  }

  lemma LowerExample()
    ensures ToLower("Hello, World! 123") == "hello, world! 123"
    ensures ToLower("HELLO WORLD 123") == "hello world 123"
  {
  }

  lemma KeptWord(w: string)
    requires w == "hello" || w == " world" || w == " 123"
    ensures KeepAlnumSpace(w) == w
  {
    KeepAllKept(w);
  }

  lemma KeptPieces(a: string, c1: string, b: string, c2: string, d: string)
    requires a == "hello" && c1 == "," && b == " world" && c2 == "!" && d == " 123"
    ensures KeepAlnumSpace(a) == a && KeepAlnumSpace(b) == b && KeepAlnumSpace(d) == d
    ensures KeepAlnumSpace(c1) == "" && KeepAlnumSpace(c2) == ""
  {
    KeptWord(a);
    KeptWord(b);
    KeptWord(d);
    DroppedMark(c1);
    DroppedMark(c2);
  }

  lemma DroppedMark(c: string)
    requires c == "," || c == "!"
    ensures KeepAlnumSpace(c) == ""
  {
    assert !KeepForNormalize(c[0]);
    assert c[1..] == "";
  }

  lemma FilterPieces(a: string, c1: string, b: string, c2: string, d: string)
    requires a == "hello" && c1 == "," && b == " world" && c2 == "!" && d == " 123"
    ensures KeepAlnumSpace(a + c1 + b + c2 + d) == a + b + d
    ensures KeepAlnumSpace(a + b + d) == a + b + d
  {
    KeptPieces(a, c1, b, c2, d);
    KeepAppend(a + c1 + b + c2, d);
    KeepAppend(a + c1 + b, c2);
    KeepAppend(a + c1, b);
    KeepAppend(a, c1);
    KeepAppend(a + b, d);
    KeepAppend(a, b);
  }

  lemma FilterExample()
    ensures KeepAlnumSpace("hello, world! 123") == "hello world 123"
    ensures KeepAlnumSpace("hello world 123") == "hello world 123"
  {
    FilterPieces("hello", ",", " world", "!", " 123");
    assert "hello" + "," + " world" + "!" + " 123" == "hello, world! 123";
    assert "hello" + " world" + " 123" == "hello world 123";
  }

  lemma WordsExample(words: seq<string>, joined: string)
    requires words == ["hello", "world", "123"] && joined == "hello world 123"
    ensures SplitWhitespace(joined) == words && Join(words, " ") == joined
  {
    assert words[1..][1..] == [words[2]];
    assert Join(words[1..], " ") == words[1] + " " + words[2];
    assert Join(words, " ") == words[0] + " " + (words[1] + " " + words[2]);
    assert "hello" + " " + ("world" + " " + "123") == "hello world 123";
    assert IsWord(words[0]) && IsWord(words[1]) && IsWord(words[2]);
    SplitWhitespaceJoin(words);
  }

  /** "Hello, World! 123" and "HELLO WORLD 123" both normalise to "hello world 123". */
  lemma NormalizeExample(t1: string, t2: string)
    requires t1 == "Hello, World! 123" && t2 == "HELLO WORLD 123"
    ensures NormalizeText(t1) == "hello world 123"
    ensures NormalizeText(t2) == "hello world 123"
  {
    LowerExample();
    FilterExample();
    WordsExample(["hello", "world", "123"], "hello world 123");
  }

  // ---------------------------------------------------------------------
  // The content hash
  // ---------------------------------------------------------------------

  /** What the standard hasher is fed: one string, or the semantic features. */
  datatype HashKey =
    | TextKey(text: string)
    | FeatureKey(word_count: nat, average_word_length: nat, first: Option<string>, last: Option<string>)

  /** The sum of the lengths of the words. */
  function TotalLength(words: seq<string>): nat
  {
    if |words| == 0 then 0 else |words[0]| + TotalLength(words[1..])
  }

  /**
   * The input `calculate_hash` hashes under each algorithm: the text itself,
   * the normalised text, or the word count, the truncated mean word length
   * and the lowercased first and last words.
   */
  function HashInput(algorithm: HashAlgorithm, text: string): HashKey
  {
    match algorithm
    case Simple => TextKey(text)
    case ContentBased => TextKey(NormalizeText(text))
    case Semantic =>
      var words := SplitWhitespace(text);
      var count := |words|;
      FeatureKey(count, if count > 0 then TotalLength(words) / count else 0,
                 if count > 0 then Some(ToLower(words[0])) else None,
                 if count > 0 then Some(ToLower(words[count - 1])) else None)
  }

  /** Under content-based hashing, texts that normalise alike hash alike, whatever the hasher. */
  lemma ContentHashIgnoresCaseAndPunctuation(hasher: HashKey -> nat, a: string, b: string)
    requires NormalizeText(a) == NormalizeText(b)
    ensures hasher(HashInput(ContentBased, a)) == hasher(HashInput(ContentBased, b))
  {
  }

  // ---------------------------------------------------------------------
  // Similarity measures
  // ---------------------------------------------------------------------

  /** `simple_levenshtein_distance`: the dynamic-programming edit distance over characters. */
  method LevenshteinDistance(s1: string, s2: string) returns (d: nat)
    ensures d == EditDistance(s1, s2)
  {
    if |s1| == 0 {
      return |s2|;
    }
    if |s2| == 0 {
      return |s1|;
    }
    d := LevenshteinMatrix(s1, s2);
  }

  /** `LevenshteinMatcher::similarity`. */
  function LevenshteinSimilarity(a: string, b: string): real
  {
    if a == b then 1.0
    else
      var maxLen := Max(|a|, |b|);
      if maxLen == 0 then 1.0 else 1.0 - EditDistance(a, b) as real / maxLen as real
  }

  /** Levenshtein similarity lies in [0, 1] and is 1 exactly for equal texts. */
  lemma LevenshteinSimilarityBounds(a: string, b: string)
    ensures 0.0 <= LevenshteinSimilarity(a, b) <= 1.0
    ensures LevenshteinSimilarity(a, b) == 1.0 <==> a == b
  {
    if a != b {
      EditDistanceUpper(a, b);
      EditDistanceZeroIff(a, b);
      var maxLen := Max(|a|, |b|);
      assert maxLen > 0;
      var d := EditDistance(a, b);
      assert 0 < d <= maxLen;
      FractionInUnit(d, maxLen);
    }
  }

  lemma FractionInUnit(d: nat, m: nat)
    requires 0 < d <= m
    ensures 0.0 < d as real / m as real <= 1.0
  {
    RatioBounds(d, m);
    PositiveQuotient(d as real, m as real);
  }

  lemma PositiveQuotient(a: real, b: real)
    requires 0.0 < a && 0.0 < b
    ensures 0.0 < a / b
  {
  }

  /** The test pair "hello" / "helo" is one deletion apart, so its similarity is exactly 0.8. */
  lemma LevenshteinHeloExample()
    ensures LevenshteinSimilarity("hello", "helo") == 0.8
  {
    OneDeletion("hel", 'l', "o");
    assert "hel" + ['l'] + "o" == "hello" && "hel" + "o" == "helo";
  }

  /** The 3-character window starting at `i`. */
  function Window(text: string, i: nat): string
    requires i + 3 <= |text|
  {
    text[i..i + 3]
  }

  /** `generate_ngrams` with n = 3: the text itself when shorter, else every 3-character window. */
  function Ngrams(text: string): set<string>
  {
    if |text| < 3 then {text}
    else set i: nat | i + 3 <= |text| :: Window(text, i)
  }

  /** The n-grams are never empty; each window is one of them and each is a 3-character piece of the text. */
  lemma NgramsShape(text: string)
    ensures Ngrams(text) != {}
    ensures |text| >= 3 ==> forall i: nat :: i + 3 <= |text| ==> Window(text, i) in Ngrams(text)
    ensures |text| >= 3 ==> forall g :: g in Ngrams(text) ==> |g| == 3 && Contains(text, g)
  {
    if |text| >= 3 {
      assert Window(text, 0) in Ngrams(text);
      forall g | g in Ngrams(text) ensures |g| == 3 && Contains(text, g) {
        var i: nat :| i + 3 <= |text| && g == Window(text, i);
        assert OccursAt(text, g, i);
      }
    }
  }

  /** `JaccardMatcher::similarity`: shared n-grams over all n-grams. */
  function JaccardSimilarity(a: string, b: string): real
  {
    if a == b then 1.0
    else
      var na, nb := Ngrams(a), Ngrams(b);
      if |na + nb| == 0 then 1.0 else |na * nb| as real / |na + nb| as real
  }

  /**
   * Jaccard similarity lies in [0, 1], is 1 for equal texts and 0 for texts
   * without a common n-gram; the union is never empty, so the program's
   * empty-union case cannot arise.
   */
  lemma JaccardBounds(a: string, b: string)
    ensures 0.0 <= JaccardSimilarity(a, b) <= 1.0
    ensures a == b ==> JaccardSimilarity(a, b) == 1.0
    ensures a != b && Ngrams(a) * Ngrams(b) == {} ==> JaccardSimilarity(a, b) == 0.0
    ensures |Ngrams(a) + Ngrams(b)| > 0
  {
    var na, nb := Ngrams(a), Ngrams(b);
    NgramsShape(a);
    var x :| x in na;
    assert x in na + nb;
    SubsetCard(na * nb, na + nb);
    if a != b {
      RatioBounds(|na * nb|, |na + nb|);
    }
  }

  /** The combined matcher scores every pair 0.8 * 0.4 + 0.7 * 0.4 + 0.6 * 0.2 = 0.72. */
  function CombinedSimilarity(a: string, b: string): (r: real)
    ensures r == 0.72
  {
    0.8 * 0.4 + 0.7 * 0.4 + 0.6 * 0.2
  }

  /** The fuzzy matchers the deduplicator may hold (the semantic matcher is not part of this model). */
  datatype Matcher = LevenshteinMatcher | JaccardMatcher | CombinedMatcher

  function Similarity(m: Matcher, a: string, b: string): (r: real)
    ensures 0.0 <= r <= 1.0
  {
    LevenshteinSimilarityBounds(a, b);
    JaccardBounds(a, b);
    match m
    case LevenshteinMatcher => LevenshteinSimilarity(a, b)
    case JaccardMatcher => JaccardSimilarity(a, b)
    case CombinedMatcher => CombinedSimilarity(a, b)
  }

  /** `FuzzyMatcher::is_similar`. */
  predicate IsSimilar(m: Matcher, a: string, b: string, threshold: real)
  {
    Similarity(m, a, b) >= threshold
  }

  /** The combined matcher calls a pair similar exactly when the threshold is at most 0.72. */
  lemma CombinedSimilarIff(a: string, b: string, threshold: real)
    ensures IsSimilar(CombinedMatcher, a, b, threshold) <==> threshold <= 0.72
  {
  }

  /** The similarity the chosen matcher reports, computing edit distances with the matrix. */
  method MatcherSimilarity(m: Matcher, a: string, b: string) returns (r: real)
    ensures r == Similarity(m, a, b)
  {
    match m {
      case LevenshteinMatcher =>
        if a == b {
          return 1.0;
        }
        var d := LevenshteinDistance(a, b);
        var maxLen := Max(|a|, |b|);
        r := if maxLen == 0 then 1.0 else 1.0 - d as real / maxLen as real;
      case JaccardMatcher =>
        r := JaccardSimilarity(a, b);
      case CombinedMatcher =>
        r := 0.8 * 0.4 + 0.7 * 0.4 + 0.6 * 0.2;
    }
  }

  // ---------------------------------------------------------------------
  // Merging
  // ---------------------------------------------------------------------

  /** The index `max_by` picks among the first `n` entries: the last of the most confident. */
  function MaxConfidenceIndex(ts: seq<TranscriptEntry>, n: nat): (i: nat)
    requires 0 < n <= |ts|
    ensures i < n
    ensures forall j :: 0 <= j < n ==> ts[j].confidence <= ts[i].confidence
    ensures forall j :: i < j < n ==> ts[j].confidence < ts[i].confidence
  {
    if n == 1 then 0
    else
      var m := MaxConfidenceIndex(ts, n - 1);
      if ts[n - 1].confidence >= ts[m].confidence then n - 1 else m
  }

  function SumConfidence(ts: seq<TranscriptEntry>): real
  {
    if |ts| == 0 then 0.0 else ts[0].confidence + SumConfidence(ts[1..])
  }

  lemma {:induction false} SumConfidenceBounds(ts: seq<TranscriptEntry>, lo: real, hi: real)
    requires forall j :: 0 <= j < |ts| ==> lo <= ts[j].confidence <= hi
    ensures |ts| as real * lo <= SumConfidence(ts) <= |ts| as real * hi
    decreases |ts|
  {
    if |ts| > 0 {
      SumConfidenceBounds(ts[1..], lo, hi);
    }
  }

  /**
   * `merge_similar_transcripts` (the program panics on an empty list): a
   * single entry is returned as it is; otherwise the primary is the last of
   * the most confident entries, the confidence is the mean, and every input
   * id is listed in order.
   */
  function MergeSimilar(ts: seq<TranscriptEntry>): (r: MergedTranscript)
    requires |ts| > 0
    ensures |ts| == 1 ==> r == MergedTranscript(ts[0].id, ts[0].text, ts[0].confidence, [ts[0].id],
                                                HighestConfidenceMerge)
    ensures r.merge_strategy == HighestConfidenceMerge
    ensures |r.source_ids| == |ts| && forall j :: 0 <= j < |ts| ==> r.source_ids[j] == ts[j].id
  {
    if |ts| == 1 then
      MergedTranscript(ts[0].id, ts[0].text, ts[0].confidence, [ts[0].id], HighestConfidenceMerge)
    else
      var p := MaxConfidenceIndex(ts, |ts|);
      MergedTranscript(ts[p].id, ts[p].text, SumConfidence(ts) / |ts| as real,
                       seq(|ts|, j requires 0 <= j < |ts| => ts[j].id), HighestConfidenceMerge)
  }

  /**
   * The merged transcript takes its id and text from an entry no other entry
   * is more confident than, with no equally confident entry after it.
   */
  lemma MergePrimaryIsMostConfident(ts: seq<TranscriptEntry>)
    requires |ts| > 0
    ensures exists p :: (0 <= p < |ts|
      && MergeSimilar(ts).primary_id == ts[p].id && MergeSimilar(ts).merged_text == ts[p].text
      && (forall j :: 0 <= j < |ts| ==> ts[j].confidence <= ts[p].confidence)
      && (forall j :: p < j < |ts| ==> ts[j].confidence < ts[p].confidence))
  {
    var p := MaxConfidenceIndex(ts, |ts|);
    assert MergeSimilar(ts).primary_id == ts[p].id && MergeSimilar(ts).merged_text == ts[p].text;
  }

  /** The combined confidence lies within any bounds all input confidences lie within. */
  lemma MergeConfidenceWithin(ts: seq<TranscriptEntry>, lo: real, hi: real)
    requires |ts| > 0
    requires forall j :: 0 <= j < |ts| ==> lo <= ts[j].confidence <= hi
    ensures lo <= MergeSimilar(ts).combined_confidence <= hi
  {
    if |ts| > 1 {
      SumConfidenceBounds(ts, lo, hi);
      var n := |ts| as real;
      var sum := SumConfidence(ts);
      assert n * lo <= sum <= n * hi;
      MeanWithin(sum, n, lo, hi);
    }
  }

  lemma MeanWithin(sum: real, n: real, lo: real, hi: real)
    requires n > 0.0 && n * lo <= sum <= n * hi
    ensures lo <= sum / n <= hi
  {
  }

  // ---------------------------------------------------------------------
  // The deduplicator
  // ---------------------------------------------------------------------

  /** `CachedTranscript`. */
  datatype CachedTranscript = CachedTranscript(
    id: TranscriptId, text: string, hash: nat, timestamp: int, confidence: real, normalized_text: string)

  /** The window entry kept for a transcript, with its normalised text. */
  function CacheOf(entry: TranscriptEntry): (c: CachedTranscript)
    ensures c.id == entry.id && c.hash == entry.hash && c.timestamp == entry.timestamp
  {
    CachedTranscript(entry.id, entry.text, entry.hash, entry.timestamp, entry.confidence, NormalizeText(entry.text))
  }

  /** `DeduplicationStats` without the measured processing time. */
  datatype DeduplicationStats = DeduplicationStats(
    total_duplicates: nat, exact_duplicates: nat, fuzzy_duplicates: nat, storage_saved_bytes: nat,
    average_fuzzy_similarity: real)

  /** `DeduplicationStats::new`. */
  function NewStats(): (s: DeduplicationStats)
    ensures s.total_duplicates == s.exact_duplicates + s.fuzzy_duplicates == 0
  {
    DeduplicationStats(0, 0, 0, 0, 0.0)
  }

  /** The oldest timestamp still inside the recent window. */
  function Cutoff(now: int, windowMinutes: nat): int
  {
    now - windowMinutes * 60
  }

  /** The matcher `new` installs: combined when fuzzy matching is on, else Levenshtein. */
  function MatcherFor(config: DeduplicationConfig): Matcher
  {
    if config.enable_fuzzy_matching then CombinedMatcher else LevenshteinMatcher
  }

  /** The first cached transcript inside the window that is similar enough, with its similarity. */
  function FirstSimilar(recent: seq<CachedTranscript>, normalized: string, cutoff: int, m: Matcher,
                        threshold: real): Option<(TranscriptId, real)>
  {
    if |recent| == 0 then None
    else if recent[0].timestamp >= cutoff && Similarity(m, normalized, recent[0].normalized_text) >= threshold
    then Some((recent[0].id, Similarity(m, normalized, recent[0].normalized_text)))
    else FirstSimilar(recent[1..], normalized, cutoff, m, threshold)
  }

  /** A cached transcript that is inside the window and similar enough. */
  predicate Matches(c: CachedTranscript, normalized: string, cutoff: int, m: Matcher, threshold: real)
  {
    c.timestamp >= cutoff && Similarity(m, normalized, c.normalized_text) >= threshold
  }

  /**
   * The search reports the earliest matching cached transcript, or nothing
   * when none matches.
   */
  lemma {:induction false} FirstSimilarSpec(recent: seq<CachedTranscript>, normalized: string, cutoff: int,
                                            m: Matcher, threshold: real)
    ensures FirstSimilar(recent, normalized, cutoff, m, threshold).None? <==>
      (forall k :: 0 <= k < |recent| ==> !Matches(recent[k], normalized, cutoff, m, threshold))
    ensures FirstSimilar(recent, normalized, cutoff, m, threshold).Some? ==>
      exists k :: 0 <= k < |recent| && Matches(recent[k], normalized, cutoff, m, threshold)
        && FirstSimilar(recent, normalized, cutoff, m, threshold).value
           == (recent[k].id, Similarity(m, normalized, recent[k].normalized_text))
        && forall j :: 0 <= j < k ==> !Matches(recent[j], normalized, cutoff, m, threshold)
    decreases |recent|
  {
    if |recent| > 0 && !Matches(recent[0], normalized, cutoff, m, threshold) {
      FirstSimilarSpec(recent[1..], normalized, cutoff, m, threshold);
      var r := FirstSimilar(recent, normalized, cutoff, m, threshold);
      if r.Some? {
        var k :| 0 <= k < |recent[1..]| && Matches(recent[1..][k], normalized, cutoff, m, threshold)
          && r.value == (recent[1..][k].id, Similarity(m, normalized, recent[1..][k].normalized_text))
          && forall j :: 0 <= j < k ==> !Matches(recent[1..][j], normalized, cutoff, m, threshold);
        assert recent[k + 1] == recent[1..][k];
        forall j | 0 <= j < k + 1 ensures !Matches(recent[j], normalized, cutoff, m, threshold) {
          if j > 0 { assert recent[j] == recent[1..][j - 1]; }
        }
      } else {
        forall k | 0 <= k < |recent| ensures !Matches(recent[k], normalized, cutoff, m, threshold) {
          if k > 0 { assert recent[k] == recent[1..][k - 1]; }
        }
      }
    }
  }

  /** With the combined matcher and a threshold above 0.72, no cached transcript is ever similar. */
  lemma {:induction false} CombinedNeverSimilar(recent: seq<CachedTranscript>, normalized: string, cutoff: int,
                                                threshold: real)
    requires threshold > 0.72
    ensures FirstSimilar(recent, normalized, cutoff, CombinedMatcher, threshold).None?
    decreases |recent|
  {
    if |recent| > 0 {
      CombinedNeverSimilar(recent[1..], normalized, cutoff, threshold);
    }
  }

  /**
   * The loop of `is_duplicate` over the recent window: skip entries older
   * than the cutoff and stop at the first one similar enough.
   */
  method ScanRecent(recent: seq<CachedTranscript>, normalized: string, cutoff: int, m: Matcher, threshold: real)
    returns (found: Option<(TranscriptId, real)>)
    ensures found == FirstSimilar(recent, normalized, cutoff, m, threshold)
    ensures found.Some? ==> 0.0 <= found.value.1 <= 1.0
  {
    for i := 0 to |recent|
      invariant FirstSimilar(recent[i..], normalized, cutoff, m, threshold)
                == FirstSimilar(recent, normalized, cutoff, m, threshold)
    {
      var cached := recent[i];
      assert recent[i..][1..] == recent[i + 1..];
      if cached.timestamp < cutoff {
        continue;
      }
      var similarity := MatcherSimilarity(m, normalized, cached.normalized_text);
      if similarity >= threshold {
        assert recent[i..][0] == cached;
        return Some((cached.id, similarity));
      }
    }
    assert recent[|recent|..] == [];
    found := None;
  }

  /** The verdict of `is_duplicate` on a given cache and window. */
  function DuplicateOf(config: DeduplicationConfig, hasher: HashKey -> nat, cache: map<nat, TranscriptId>,
                       recent: seq<CachedTranscript>, text: string, now: int): DuplicationResult
  {
    var h := hasher(HashInput(config.hash_algorithm, text));
    if h in cache then ExactDuplicate(cache[h])
    else if !config.enable_fuzzy_matching then Unique
    else
      match FirstSimilar(recent, NormalizeText(text), Cutoff(now, config.recent_window_minutes),
                         MatcherFor(config), config.similarity_threshold)
      case Some(found) => SimilarTranscript(found.0, found.1)
      case None => Unique
  }

  /**
   * With the service's configuration (threshold 0.85, fuzzy matching on),
   * `is_duplicate` reports exact hits and otherwise Unique: it never
   * reports a similar transcript.
   */
  lemma ServiceConfigNeverSimilar(hasher: HashKey -> nat, cache: map<nat, TranscriptId>,
                                  recent: seq<CachedTranscript>, text: string, now: int)
    ensures
      var config := DeduplicationConfig(0.85, 10, true, ContentBased);
      var r := DuplicateOf(config, hasher, cache, recent, text, now);
      !r.SimilarTranscript? && (r.ExactDuplicate? <==> hasher(TextKey(NormalizeText(text))) in cache)
  {
    CombinedNeverSimilar(recent, NormalizeText(text), Cutoff(now, 10), 0.85);
  }

  /** The running mean after one more sample stays in [0, 1]. */
  lemma MeanStep(avg: real, n: nat, s: real)
    requires 0.0 <= avg <= 1.0 && 0.0 <= s <= 1.0
    ensures 0.0 <= (avg * n as real + s) / (n + 1) as real <= 1.0
  {
    var k := n as real;
    assert 0.0 <= avg * k <= k;
    assert 0.0 <= avg * k + s <= k + 1.0;
  }

  /** The running mean after one more sample, times the new count, is the old sum plus the sample. */
  lemma MeanSum(avg: real, n: nat, s: real)
    ensures ((avg * n as real + s) / (n + 1) as real) * (n + 1) as real == avg * n as real + s
    ensures 0.0 <= avg <= 1.0 && 0.0 <= s <= 1.0 ==> 0.0 <= (avg * n as real + s) / (n + 1) as real <= 1.0
  {
    if 0.0 <= avg <= 1.0 && 0.0 <= s <= 1.0 {
      MeanStep(avg, n, s);
    }
  }

  /** Leading entries older than the cutoff dropped, as the eviction loop does. */
  function DropStale(recent: seq<CachedTranscript>, cutoff: int): (r: seq<CachedTranscript>)
    ensures |r| <= |recent| && r == recent[|recent| - |r|..]
    ensures |r| > 0 ==> r[0].timestamp >= cutoff
    ensures forall k :: 0 <= k < |recent| - |r| ==> recent[k].timestamp < cutoff
  {
    if |recent| > 0 && recent[0].timestamp < cutoff then DropStale(recent[1..], cutoff) else recent
  }

  /**
   * The statistics after a verdict: an exact hit counts as exact, a similar
   * transcript as fuzzy with the running mean similarity updated, both in
   * the total; Unique changes nothing.
   */
  function Counted(s: DeduplicationStats, r: DuplicationResult): (t: DeduplicationStats)
    ensures t.total_duplicates == s.total_duplicates + (if r.Unique? then 0 else 1)
    ensures t.exact_duplicates == s.exact_duplicates + (if r.ExactDuplicate? then 1 else 0)
    ensures t.fuzzy_duplicates == s.fuzzy_duplicates + (if r.SimilarTranscript? then 1 else 0)
    ensures t.storage_saved_bytes == s.storage_saved_bytes
    ensures !r.SimilarTranscript? ==> t.average_fuzzy_similarity == s.average_fuzzy_similarity
    ensures r.SimilarTranscript? ==>
      t.average_fuzzy_similarity * t.fuzzy_duplicates as real
      == s.average_fuzzy_similarity * s.fuzzy_duplicates as real + r.similarity
    ensures r.SimilarTranscript? && 0.0 <= s.average_fuzzy_similarity <= 1.0 && 0.0 <= r.similarity <= 1.0
            ==> 0.0 <= t.average_fuzzy_similarity <= 1.0
  {
    match r
    case Unique => s
    case ExactDuplicate(_) =>
      s.(exact_duplicates := s.exact_duplicates + 1, total_duplicates := s.total_duplicates + 1)
    case SimilarTranscript(_, similarity) =>
      var k := s.fuzzy_duplicates;
      var mean := (s.average_fuzzy_similarity * k as real + similarity) / (k + 1) as real;
      MeanSum(s.average_fuzzy_similarity, k, similarity);
      var t := s.(fuzzy_duplicates := k + 1, total_duplicates := s.total_duplicates + 1,
                  average_fuzzy_similarity := mean);
      assert mean * (k + 1) as real == s.average_fuzzy_similarity * k as real + similarity;
      assert t.average_fuzzy_similarity == mean && t.fuzzy_duplicates == k + 1;
      assert 0.0 <= s.average_fuzzy_similarity <= 1.0 && 0.0 <= similarity <= 1.0 ==> 0.0 <= mean <= 1.0;
      t
  }

  class TranscriptDeduplicator {
    const config: DeduplicationConfig
    /** The standard hasher, uninterpreted. */
    const hasher: HashKey -> nat
    var hash_cache: map<nat, TranscriptId>
    var recent_transcripts: seq<CachedTranscript>
    var stats: DeduplicationStats

    /** Every duplicate is exact or fuzzy, and the mean fuzzy similarity is a similarity. */
    predicate Valid()
      reads this
    {
      stats.total_duplicates == stats.exact_duplicates + stats.fuzzy_duplicates
      && 0.0 <= stats.average_fuzzy_similarity <= 1.0
    }

    /** `new`: empty caches and zero statistics. */
    constructor (config: DeduplicationConfig, hasher: HashKey -> nat)
      ensures Valid()
      ensures this.config == config && this.hasher == hasher
      ensures hash_cache == map[] && recent_transcripts == [] && stats == NewStats()
    {
      this.config := config;
      this.hasher := hasher;
      hash_cache := map[];
      recent_transcripts := [];
      stats := NewStats();
    }

    function Hash(text: string): nat
      reads this
    {
      hasher(HashInput(config.hash_algorithm, text))
    }

    /**
     * `is_duplicate`: an exact hash hit first; then, with fuzzy matching on,
     * the first cached transcript inside the window that is similar enough.
     * Each detection counts once as exact or fuzzy and once in the total.
     */
    method IsDuplicate(text: string, now: int) returns (r: DuplicationResult)
      requires Valid()
      modifies this
      ensures Valid()
      ensures r == DuplicateOf(config, hasher, hash_cache, recent_transcripts, text, now)
      ensures hash_cache == old(hash_cache) && recent_transcripts == old(recent_transcripts)
      ensures stats == Counted(old(stats), r)
    {
      var h := Hash(text);
      if h in hash_cache {
        r := ExactDuplicate(hash_cache[h]);
        stats := Counted(stats, r);
        return;
      }
      if config.enable_fuzzy_matching {
        var found := ScanRecent(recent_transcripts, NormalizeText(text), Cutoff(now, config.recent_window_minutes),
                                MatcherFor(config), config.similarity_threshold);
        if found.Some? {
          r := SimilarTranscript(found.value.0, found.value.1);
          assert r == DuplicateOf(config, hasher, hash_cache, recent_transcripts, text, now);
          stats := Counted(stats, r);
          return;
        }
      }
      r := Unique;
    }

    /**
     * `add_transcript`: map the entry's hash to its id, append it to the
     * recent window, then drop entries older than the window from the front.
     */
    method AddTranscript(entry: TranscriptEntry, now: int)
      modifies this
      ensures hash_cache == old(hash_cache)[entry.hash := entry.id]
      ensures recent_transcripts
              == DropStale(old(recent_transcripts) + [CacheOf(entry)], Cutoff(now, config.recent_window_minutes))
      ensures stats == old(stats)
    {
      hash_cache := hash_cache[entry.hash := entry.id];
      var cached := CacheOf(entry);
      var recent := recent_transcripts + [cached];
      ghost var appended := recent;
      var cutoff := Cutoff(now, config.recent_window_minutes);
      while |recent| > 0
        invariant DropStale(recent, cutoff) == DropStale(appended, cutoff)
        decreases |recent|
      {
        if recent[0].timestamp >= cutoff {
          break;
        }
        recent := recent[1..];
      }
      recent_transcripts := recent;
    }

    /** `reset`: empty caches and zero statistics. */
    method Reset()
      modifies this
      ensures Valid()
      ensures hash_cache == map[] && recent_transcripts == [] && stats == NewStats()
    {
      hash_cache := map[];
      recent_transcripts := [];
      stats := NewStats();
    }
  }

  /** Cached transcripts in timestamp order. */
  predicate Chronological(recent: seq<CachedTranscript>)
  {
    forall i, j :: 0 <= i < j < |recent| ==> recent[i].timestamp <= recent[j].timestamp
  }

  /**
   * After appending a transcript that is inside the window to a window in
   * timestamp order, the window keeps it last and holds only transcripts
   * inside the window.
   */
  lemma {:induction false} AddKeepsWindow(recent: seq<CachedTranscript>, cutoff: int)
    requires Chronological(recent) && |recent| > 0 && recent[|recent| - 1].timestamp >= cutoff
    ensures |DropStale(recent, cutoff)| > 0
    ensures DropStale(recent, cutoff)[|DropStale(recent, cutoff)| - 1] == recent[|recent| - 1]
    ensures forall k :: 0 <= k < |DropStale(recent, cutoff)| ==> DropStale(recent, cutoff)[k].timestamp >= cutoff
    decreases |recent|
  {
    if recent[0].timestamp < cutoff {
      assert |recent| > 1;
      assert recent[1..][|recent| - 2] == recent[|recent| - 1];
      assert Chronological(recent[1..]) by {
        forall i, j | 0 <= i < j < |recent| - 1 ensures recent[1..][i].timestamp <= recent[1..][j].timestamp {
          assert recent[1..][i] == recent[i + 1] && recent[1..][j] == recent[j + 1];
        }
      }
      assert DropStale(recent, cutoff) == DropStale(recent[1..], cutoff);
      AddKeepsWindow(recent[1..], cutoff);
    } else {
      assert DropStale(recent, cutoff) == recent;
      forall k | 0 <= k < |recent| ensures recent[k].timestamp >= cutoff {
        if k > 0 { assert recent[0].timestamp <= recent[k].timestamp; }
      }
    }
  }

  /**
   * The deduplication test: a first check of "Hello, this is a test." is
   * Unique; after adding that transcript (hash 12345), a check of
   * "Hello, this is a test!" is Unique too, because the combined matcher's
   * 0.72 is below the test's 0.8 threshold (the test expects a similar
   * transcript); this holds for any hasher that does not happen to map the
   * normalised text to 12345.
   */
  method DeduplicationScenario(hasher: HashKey -> nat, now: int, first_text: string, second_text: string)
    returns (first: DuplicationResult, second: DuplicationResult)
    requires hasher(HashInput(ContentBased, second_text)) != 12345
    ensures first == Unique && second == Unique
  {
    var d;
    d, first := FreshCheck(hasher, now, first_text);
    d.AddTranscript(TestEntry(first_text, now), now);
    assert d.hash_cache == map[12345 := 1];
    CombinedMissUnique(d.config, hasher, d.hash_cache, d.recent_transcripts, second_text, now);
    second := d.IsDuplicate(second_text, now);
  }

  /** A fresh deduplicator with the test's configuration, after checking one text. */
  method FreshCheck(hasher: HashKey -> nat, now: int, text: string)
    returns (d: TranscriptDeduplicator, first: DuplicationResult)
    ensures fresh(d) && d.Valid() && first == Unique
    ensures d.config == DeduplicationConfig(0.8, 10, true, ContentBased) && d.hasher == hasher
    ensures d.hash_cache == map[]
  {
    var config := DeduplicationConfig(0.8, 10, true, ContentBased);
    d := new TranscriptDeduplicator(config, hasher);
    NothingCachedUnique(config, hasher, text, now);
    first := d.IsDuplicate(text, now);
  }

  /** The entry the test records: id 1, hash 12345. */
  function TestEntry(text: string, now: int): (e: TranscriptEntry)
    ensures e.id == 1 && e.hash == 12345 && e.text == text && e.timestamp == now
  {
    TranscriptEntry(1, now, text, 0.9, "test", 1000, None, None, 12345, [],
                    TranscriptMetadata(LiveAudio, now, now, [], 0.9), Some("en"), None)
  }

  /** With nothing cached every text is unique. */
  lemma NothingCachedUnique(config: DeduplicationConfig, hasher: HashKey -> nat, text: string, now: int)
    ensures DuplicateOf(config, hasher, map[], [], text, now) == Unique
  {
  }

  /** With the combined matcher above 0.72, a hash miss is unique. */
  lemma CombinedMissUnique(config: DeduplicationConfig, hasher: HashKey -> nat, cache: map<nat, TranscriptId>,
                           recent: seq<CachedTranscript>, text: string, now: int)
    requires config.enable_fuzzy_matching && config.similarity_threshold > 0.72
    requires hasher(HashInput(config.hash_algorithm, text)) !in cache
    ensures DuplicateOf(config, hasher, cache, recent, text, now) == Unique
  {
    CombinedNeverSimilar(recent, NormalizeText(text), Cutoff(now, config.recent_window_minutes),
                         config.similarity_threshold);
  }
}
