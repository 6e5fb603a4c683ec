// The interactive test recorder: the spoken control commands, the state of
// one recording (flags, buffers, cooldowns and the accept/retry decision),
// the bounded phrase-detection buffer, word similarity by edit distance,
// silence padding and the check that a target phrase was heard. Instants
// are milliseconds supplied by the caller.

module TestRecorder {
  import opened Common

  // ---------------------------------------------------------------------
  // Spoken control commands
  // ---------------------------------------------------------------------

  datatype TestCommand =
    | StartRecording(number: Option<nat>)
    | StartNext
    | StartWithCountdown
    | StopRecording
    | ValidateLastRecording
    | CleanAndSaveTestFile
    | ToggleTTSFeedback
    | ShowPhrases
    | ShowCurrent
    | ShowRecordingTips
    | TestTTS
    | SkipTo(phrase: nat)
    | AcceptRecording
    | TryAgain
    | Quit

  /** The last whitespace-separated word, read as a `usize`. */
  function LastNumber(text: string): (r: Option<nat>)
    ensures r.Some? ==> r.value < UsizeLimit
  {
    var words := SplitWhitespace(text);
    if |words| == 0 then None else ParseUnsigned(words[|words| - 1], UsizeLimit)
  }

  /**
   * `parse_test_command`: the lowercased text is checked for each command
   * phrase in a fixed order, so a longer phrase listed first wins over a
   * shorter one it contains.
   */
  function ParseTestCommand(text: string): (r: Option<TestCommand>)
    ensures r.Some? && r.value.StartRecording? ==> Contains(ToLower(text), "start test recording")
    ensures r.Some? && r.value.StartRecording? ==> r.value.number == LastNumber(ToLower(text))
    ensures r.Some? && r.value.SkipTo? ==> Contains(ToLower(text), "skip to phrase")
    ensures r.Some? && r.value.SkipTo? ==> LastNumber(ToLower(text)) == Some(r.value.phrase)
  {
    var t := ToLower(text);
    if Contains(t, "start test recording next") then Some(StartNext)
    else if Contains(t, "start recording with countdown") then Some(StartWithCountdown)
    else if Contains(t, "start test recording") then Some(StartRecording(LastNumber(t)))
    else if Contains(t, "stop test recording") then Some(StopRecording)
    else if Contains(t, "validate last recording") then Some(ValidateLastRecording)
    else if Contains(t, "clean and save test file") then Some(CleanAndSaveTestFile)
    else if Contains(t, "toggle tts feedback") then Some(ToggleTTSFeedback)
    else if Contains(t, "show test phrases") then Some(ShowPhrases)
    else if Contains(t, "show current phrase") then Some(ShowCurrent)
    else if Contains(t, "show recording tips") then Some(ShowRecordingTips)
    else if Contains(t, "test tts") then Some(TestTTS)
    else if Contains(t, "skip to phrase") then
      match LastNumber(t)
      case Some(n) => Some(SkipTo(n))
      case None => None
    else if Contains(t, "accept recording") then Some(AcceptRecording)
    else if Contains(t, "try again") then Some(TryAgain)
    else if Contains(t, "quit test recorder") then Some(Quit)
    else None
  }

  /** Parsing ignores case. */
  lemma ParseIgnoresCase(text: string)
    ensures ParseTestCommand(ToLower(text)) == ParseTestCommand(text)
  {
    ToLowerIdempotent(text);
  }

  /** A character that occurs neither in `head` nor among digits is absent from `head` followed by digits. */
  lemma AvoidsChar(head: string, digits: string, c: char)
    requires AllDigits(digits) && !IsDigit(c)
    requires forall i :: 0 <= i < |head| ==> head[i] != c
    ensures forall i :: 0 <= i < |head + digits| ==> (head + digits)[i] != c
  {
    forall i | 0 <= i < |head + digits| ensures (head + digits)[i] != c {
      if i >= |head| { assert (head + digits)[i] == digits[i - |head|]; }
    }
  }

  /** Likewise for a pair of adjacent characters, when `head` does not end with the first. */
  lemma AvoidsPair(head: string, digits: string, a: char, b: char)
    requires AllDigits(digits) && !IsDigit(a) && |head| > 0 && head[|head| - 1] != a
    requires forall i :: 0 <= i < |head| - 1 ==> head[i] != a || head[i + 1] != b
    ensures forall i :: 0 <= i < |head + digits| - 1 ==> (head + digits)[i] != a || (head + digits)[i + 1] != b
  {
    forall i | 0 <= i < |head + digits| - 1 ensures (head + digits)[i] != a || (head + digits)[i + 1] != b {
      if i >= |head| { assert (head + digits)[i] == digits[i - |head|]; }
    }
  }

  lemma NoUpperConcat(a: string, b: string)
    requires NoUpper(a) && NoUpper(b)
    ensures NoUpper(a + b)
  {
    forall i | 0 <= i < |a + b| ensures !IsUpper((a + b)[i]) {
      if i >= |a| { assert (a + b)[i] == b[i - |a|]; }
    }
  }

  /** The decimal digits of a number form one lowercase word. */
  lemma DigitsWord(n: nat)
    ensures IsWord(NatToString(n)) && NoUpper(NatToString(n))
  {
    var d := NatToString(n);
    assert forall i :: 0 <= i < |d| ==> IsDigit(d[i]);
  }

  /** The text `head` followed by the digits has the digits as its last word and no capital letter. */
  lemma SpokenNumber(words: seq<string>, head: string, n: nat)
    requires |words| > 0 && (forall k :: 0 <= k < |words| ==> IsWord(words[k]) && NoUpper(words[k]))
    requires head == Join(words, " ") + " " && n < UsizeLimit
    ensures NoUpper(head + NatToString(n))
    ensures LastNumber(head + NatToString(n)) == Some(n)
  {
    var d := NatToString(n);
    DigitsWord(n);
    assert SplitWhitespace(head + d) == words + [d] by {
      JoinSnoc(words, d);
      SplitWhitespaceJoin(words + [d]);
    }
    NatToStringParses(n, UsizeLimit);
    JoinNoUpper(words);
    assert NoUpper(" ");
    NoUpperConcat(Join(words, " "), " ");
    NoUpperConcat(head, d);
  }

  lemma {:induction false} JoinSnoc(words: seq<string>, w: string)
    requires |words| > 0
    ensures Join(words + [w], " ") == Join(words, " ") + " " + w
    decreases |words|
  {
    if |words| > 1 {
      assert (words + [w])[1..] == words[1..] + [w];
      JoinSnoc(words[1..], w);
    }
  }

  lemma {:induction false} JoinNoUpper(words: seq<string>)
    requires forall k :: 0 <= k < |words| ==> NoUpper(words[k])
    ensures NoUpper(Join(words, " "))
    decreases |words|
  {
    if |words| > 1 {
      JoinNoUpper(words[1..]);
      var rest := Join(words[1..], " ");
      assert Join(words, " ") == words[0] + " " + rest;
      forall i | 0 <= i < |Join(words, " ")| ensures !IsUpper(Join(words, " ")[i]) {
        if i < |words[0]| { assert Join(words, " ")[i] == words[0][i]; }
        else if i > |words[0]| { assert Join(words, " ")[i] == rest[i - |words[0]| - 1]; }
      }
    }
  }

  /** A lowercase text with "start test recording" but no 'x' and no 'w' starts recording, numbered by its last word. */
  lemma ParsesAsStart(t: string)
    requires NoUpper(t) && Contains(t, "start test recording")
    requires forall i :: 0 <= i < |t| ==> t[i] != 'x' && t[i] != 'w'
    ensures ParseTestCommand(t) == Some(StartRecording(LastNumber(t)))
  {
    ToLowerIdentity(t);
    AbsentLetter(t, "start test recording next", 23);
    AbsentLetter(t, "start recording with countdown", 16);
  }

  /** "start test recording <n>" is lowercase and ends with the number. */
  lemma StartTextWords(t: string, n: nat)
    requires t == "start test recording " + NatToString(n) && n < UsizeLimit
    ensures NoUpper(t) && LastNumber(t) == Some(n)
  {
    var head := "start test recording ";
    assert head == Join(["start", "test", "recording"], " ") + " ";
    SpokenNumber(["start", "test", "recording"], head, n);
  }

  /** "start test recording <n>" has no 'x' and no 'w'. */
  lemma StartTextChars(t: string, n: nat)
    requires t == "start test recording " + NatToString(n)
    ensures forall i :: 0 <= i < |t| ==> t[i] != 'x' && t[i] != 'w'
  {
    var head := "start test recording ";
    AvoidsChar(head, NatToString(n), 'x');
    AvoidsChar(head, NatToString(n), 'w');
  }

  /** A text contains whatever it starts with. */
  lemma LeadContained(head: string, rest: string, p: string)
    requires StartsWith(head, p)
    ensures Contains(head + rest, p)
  {
    assert (head + rest)[..|p|] == head[..|p|];
    ContainsPrefix(head + rest, p);
  }

  /** "start test recording <n>" starts recording phrase `n`. */
  lemma StartRecordingNumbered(n: nat)
    requires n < UsizeLimit
    ensures ParseTestCommand("start test recording " + NatToString(n)) == Some(StartRecording(Some(n)))
  {
    var t := "start test recording " + NatToString(n);
    StartTextWords(t, n);
    StartTextChars(t, n);
    LeadContained("start test recording ", NatToString(n), "start test recording");
    ParsesAsStart(t);
  }

  /** "start test recording next <n>" is lowercase. */
  lemma StartNextText(t: string, n: nat)
    requires t == "start test recording next " + NatToString(n)
    ensures NoUpper(t)
  {
    DigitsWord(n);
    NoUpperConcat("start test recording next ", NatToString(n));
  }

  /** The command order hides the number: "start test recording next <n>" is StartNext. */
  lemma StartNextWins(n: nat)
    requires n < UsizeLimit
    ensures ParseTestCommand("start test recording next " + NatToString(n)) == Some(StartNext)
  {
    var t := "start test recording next " + NatToString(n);
    StartNextText(t, n);
    LeadContained("start test recording next ", NatToString(n), "start test recording next");
    ToLowerIdentity(t);
  }

  /** A text without 'c' and 'w' contains none of the first six phrases checked. */
  lemma FirstPhrasesAbsent(t: string)
    requires forall i :: 0 <= i < |t| ==> t[i] != 'c' && t[i] != 'w'
    ensures !Contains(t, "start test recording next") && !Contains(t, "start recording with countdown")
    ensures !Contains(t, "start test recording") && !Contains(t, "stop test recording")
    ensures !Contains(t, "clean and save test file") && !Contains(t, "show test phrases")
  {
    AbsentLetter(t, "start test recording next", 13);
    AbsentLetter(t, "start recording with countdown", 8);
    AbsentLetter(t, "start test recording", 13);
    AbsentLetter(t, "stop test recording", 12);
    AbsentLetter(t, "clean and save test file", 0);
    AbsentLetter(t, "show test phrases", 3);
  }

  /** A text without 'v', 'g' and 'w', and without "te", contains none of the other five phrases checked before "skip to phrase". */
  lemma LaterPhrasesAbsent(t: string)
    requires forall i :: 0 <= i < |t| ==> t[i] != 'v' && t[i] != 'g' && t[i] != 'w'
    requires forall i :: 0 <= i < |t| - 1 ==> t[i] != 't' || t[i + 1] != 'e'
    ensures !Contains(t, "validate last recording") && !Contains(t, "toggle tts feedback")
    ensures !Contains(t, "show current phrase") && !Contains(t, "show recording tips")
    ensures !Contains(t, "test tts")
  {
    AbsentLetter(t, "validate last recording", 0);
    AbsentLetter(t, "toggle tts feedback", 2);
    AbsentLetter(t, "show current phrase", 3);
    AbsentLetter(t, "show recording tips", 3);
    AbsentPair(t, "test tts", 0);
  }

  /** With no earlier phrase present, a lowercase text containing "skip to phrase" is decided by its last word. */
  lemma ParsesAsSkip(t: string)
    requires NoUpper(t) && Contains(t, "skip to phrase")
    requires forall i :: 0 <= i < |t| ==> t[i] != 'c' && t[i] != 'v' && t[i] != 'g' && t[i] != 'w'
    requires forall i :: 0 <= i < |t| - 1 ==> t[i] != 't' || t[i + 1] != 'e'
    ensures LastNumber(t).Some? ==> ParseTestCommand(t) == Some(SkipTo(LastNumber(t).value))
    ensures LastNumber(t).None? ==> ParseTestCommand(t) == None
  {
    ToLowerIdentity(t);
    FirstPhrasesAbsent(t);
    LaterPhrasesAbsent(t);
  }

  /** "skip to phrase <n>" is lowercase and ends with the number. */
  lemma SkipTextWords(t: string, n: nat)
    requires t == "skip to phrase " + NatToString(n) && n < UsizeLimit
    ensures NoUpper(t) && LastNumber(t) == Some(n)
  {
    var head := "skip to phrase ";
    assert head == Join(["skip", "to", "phrase"], " ") + " ";
    SpokenNumber(["skip", "to", "phrase"], head, n);
  }

  /** "skip to phrase <n>" has no 'c', 'v', 'g' or 'w', and no "te". */
  lemma SkipTextChars(t: string, n: nat)
    requires t == "skip to phrase " + NatToString(n)
    ensures forall i :: 0 <= i < |t| ==> t[i] != 'c' && t[i] != 'v' && t[i] != 'g' && t[i] != 'w'
    ensures forall i :: 0 <= i < |t| - 1 ==> t[i] != 't' || t[i + 1] != 'e'
  {
    var head := "skip to phrase ";
    var d := NatToString(n);
    AvoidsChar(head, d, 'c');
    AvoidsChar(head, d, 'v');
    AvoidsChar(head, d, 'g');
    AvoidsChar(head, d, 'w');
    AvoidsPair(head, d, 't', 'e');
  }

  /** "skip to phrase <n>" skips to phrase `n`. */
  lemma SkipToNumbered(n: nat)
    requires n < UsizeLimit
    ensures ParseTestCommand("skip to phrase " + NatToString(n)) == Some(SkipTo(n))
  {
    var t := "skip to phrase " + NatToString(n);
    SkipTextWords(t, n);
    SkipTextChars(t, n);
    LeadContained("skip to phrase ", NatToString(n), "skip to phrase");
    ParsesAsSkip(t);
  }

  /** The bare "skip to phrase" ends with a word that is no number. */
  lemma BareSkipLast(t: string)
    requires t == "skip to phrase"
    ensures LastNumber(t) == None
  {
    assert t == Join(["skip", "to", "phrase"], " ");
    SplitWhitespaceJoin(["skip", "to", "phrase"]);
    assert ParseUnsigned("phrase", UsizeLimit) == None by { assert !IsDigit("phrase"[0]); }
  }

  /** The bare "skip to phrase" has no 'c', 'v', 'g' or 'w', and no "te". */
  lemma BareSkipChars(t: string)
    requires t == "skip to phrase"
    ensures NoUpper(t)
    ensures forall i :: 0 <= i < |t| ==> t[i] != 'c' && t[i] != 'v' && t[i] != 'g' && t[i] != 'w'
    ensures forall i :: 0 <= i < |t| - 1 ==> t[i] != 't' || t[i + 1] != 'e'
  {
  }

  /** "skip to phrase" without a number is no command at all. */
  lemma SkipWithoutNumber(t: string)
    requires t == "skip to phrase"
    ensures ParseTestCommand(t) == None
  {
    ContainsSelf(t);
    BareSkipLast(t);
    BareSkipChars(t);
    ParsesAsSkip(t);
  }

  // ---------------------------------------------------------------------
  // The recording state
  // ---------------------------------------------------------------------

  /** The detection buffer keeps 20 seconds at 16 kHz. */
  const DetectionCapacity: nat := 20 * 16000
  /** Milliseconds during which spoken commands are ignored after a start. */
  const StartCooldown: nat := 2000
  /** Milliseconds during which spoken commands are ignored after the playback starts. */
  const DecisionCooldown: nat := 3000

  /** `RecordingState`. */
  class RecordingState {
    var is_recording: bool
    var phrase: string
    var phrase_number: nat
    var audio_buffer: seq<real>
    var start_time: Option<int>
    var segment_start: Option<int>
    var last_recording_path: Option<string>
    var last_transcription: Option<string>
    var validation_score: Option<real>
    var waiting_for_phrase: bool
    var phrase_detection_buffer: seq<real>
    var phrase_start_time: Option<int>
    var command_cooldown_until: Option<int>
    var waiting_for_decision: bool
    var pending_recording_path: Option<string>

    /** The detection buffer stays within its capacity, and a decision is pending exactly when there is a recording to decide on. */
    predicate Valid()
      reads this
    {
      |phrase_detection_buffer| <= DetectionCapacity
      && (waiting_for_decision <==> pending_recording_path.Some?)
    }

    /** `RecordingState::new`. */
    constructor ()
      ensures Valid()
      ensures !is_recording && phrase == "" && phrase_number == 0 && audio_buffer == []
      ensures start_time == None && segment_start == None
      ensures last_recording_path == None && last_transcription == None && validation_score == None
      ensures !waiting_for_phrase && phrase_detection_buffer == [] && phrase_start_time == None
      ensures command_cooldown_until == None && !waiting_for_decision && pending_recording_path == None
    {
      is_recording := false;
      phrase := "";
      phrase_number := 0;
      audio_buffer := [];
      start_time := None;
      segment_start := None;
      last_recording_path := None;
      last_transcription := None;
      validation_score := None;
      waiting_for_phrase := false;
      phrase_detection_buffer := [];
      phrase_start_time := None;
      command_cooldown_until := None;
      waiting_for_decision := false;
      pending_recording_path := None;
    }

    /**
     * `start_recording`: wait for the phrase with empty buffers and no
     * times yet, and ignore commands for the next two seconds.
     */
    method StartRecording(phrase: string, phrase_number: nat, now: int)
      requires Valid()
      modifies this`waiting_for_phrase, this`phrase, this`phrase_number, this`audio_buffer,
               this`phrase_detection_buffer, this`start_time, this`segment_start, this`phrase_start_time,
               this`command_cooldown_until
      ensures Valid()
      ensures waiting_for_phrase && this.phrase == phrase && this.phrase_number == phrase_number
      ensures audio_buffer == [] && phrase_detection_buffer == []
      ensures start_time == None && segment_start == None && phrase_start_time == None
      ensures command_cooldown_until == Some(now + StartCooldown)
    {
      waiting_for_phrase := true;
      this.phrase := phrase;
      this.phrase_number := phrase_number;
      audio_buffer := [];
      phrase_detection_buffer := [];
      start_time := None;
      segment_start := None;
      phrase_start_time := None;
      command_cooldown_until := Some(now + StartCooldown);
    }

    /**
     * `stop_recording`: flags, buffers, times and the cooldown are cleared;
     * the phrase, its number and the pending decision are kept.
     */
    method StopRecording()
      requires Valid()
      modifies this`is_recording, this`waiting_for_phrase, this`audio_buffer, this`phrase_detection_buffer,
               this`start_time, this`segment_start, this`phrase_start_time, this`command_cooldown_until
      ensures Valid()
      ensures !is_recording && !waiting_for_phrase && audio_buffer == [] && phrase_detection_buffer == []
      ensures start_time == None && segment_start == None && phrase_start_time == None
      ensures command_cooldown_until == None
    {
      is_recording := false;
      waiting_for_phrase := false;
      audio_buffer := [];
      phrase_detection_buffer := [];
      start_time := None;
      segment_start := None;
      phrase_start_time := None;
      command_cooldown_until := None;
    }

    /** `set_last_recording`: a new recording has not been validated yet. */
    method SetLastRecording(path: string, transcription: Option<string>)
      requires Valid()
      modifies this`last_recording_path, this`last_transcription, this`validation_score
      ensures Valid()
      ensures last_recording_path == Some(path) && last_transcription == transcription && validation_score == None
    {
      last_recording_path := Some(path);
      last_transcription := transcription;
      validation_score := None;
    }

    /** `clear_session`: forgets the phrase, the last recording and any decision; the audio buffer is kept. */
    method ClearSession()
      requires Valid()
      modifies this`phrase, this`phrase_number, this`last_recording_path, this`last_transcription,
               this`validation_score, this`waiting_for_phrase, this`phrase_detection_buffer,
               this`phrase_start_time, this`command_cooldown_until, this`waiting_for_decision,
               this`pending_recording_path
      ensures Valid()
      ensures phrase == "" && phrase_number == 0
      ensures last_recording_path == None && last_transcription == None && validation_score == None
      ensures !waiting_for_phrase && phrase_detection_buffer == [] && phrase_start_time == None
      ensures command_cooldown_until == None && !waiting_for_decision && pending_recording_path == None
    {
      phrase := "";
      phrase_number := 0;
      last_recording_path := None;
      last_transcription := None;
      validation_score := None;
      waiting_for_phrase := false;
      phrase_detection_buffer := [];
      phrase_start_time := None;
      command_cooldown_until := None;
      waiting_for_decision := false;
      pending_recording_path := None;
    }

    /** `start_segment`: only the first call sets the segment start. */
    method StartSegment(now: int)
      requires Valid()
      modifies this`segment_start
      ensures Valid()
      ensures segment_start == if old(segment_start).None? then Some(now) else old(segment_start)
    {
      if segment_start.None? {
        segment_start := Some(now);
      }
    }

    /** `add_audio_samples`. */
    method AddAudioSamples(samples: seq<real>)
      requires Valid()
      modifies this`audio_buffer
      ensures Valid()
      ensures audio_buffer == old(audio_buffer) + samples
    {
      audio_buffer := audio_buffer + samples;
    }

    /** `add_detection_samples`: append, then drop the oldest samples beyond the capacity. */
    method AddDetectionSamples(samples: seq<real>)
      requires Valid()
      modifies this`phrase_detection_buffer
      ensures Valid()
      ensures phrase_detection_buffer == LastN(old(phrase_detection_buffer) + samples, DetectionCapacity)
    {
      phrase_detection_buffer := phrase_detection_buffer + samples;
      if |phrase_detection_buffer| > DetectionCapacity {
        var excess := |phrase_detection_buffer| - DetectionCapacity;
        phrase_detection_buffer := phrase_detection_buffer[excess..];
      }
    }

    /** `is_in_command_cooldown`: a cooldown is set and has not yet expired. */
    predicate IsInCommandCooldown(now: int)
      reads this
    {
      command_cooldown_until.Some? && now < command_cooldown_until.value
    }

    /** `start_decision_flow`: wait for accept or retry on this recording, ignoring commands for three seconds. */
    method StartDecisionFlow(recording_path: string, now: int)
      requires Valid()
      modifies this`waiting_for_decision, this`pending_recording_path, this`command_cooldown_until
      ensures Valid()
      ensures waiting_for_decision && pending_recording_path == Some(recording_path)
      ensures command_cooldown_until == Some(now + DecisionCooldown)
    {
      waiting_for_decision := true;
      pending_recording_path := Some(recording_path);
      command_cooldown_until := Some(now + DecisionCooldown);
    }

    /** `complete_decision_flow`. */
    method CompleteDecisionFlow()
      requires Valid()
      modifies this`waiting_for_decision, this`pending_recording_path, this`command_cooldown_until
      ensures Valid()
      ensures !waiting_for_decision && pending_recording_path == None && command_cooldown_until == None
    {
      waiting_for_decision := false;
      pending_recording_path := None;
      command_cooldown_until := None;
    }
  }

  /** Feeding the detection buffer in two chunks keeps the same samples as feeding them at once. */
  lemma DetectionChunks<T>(s: seq<T>, t: seq<T>, n: nat)
    ensures LastN(LastN(s, n) + t, n) == LastN(s + t, n)
  {
    var u := LastN(s, n);
    assert u + t == (s + t)[|s| - |u|..];
    if |u + t| > n {
      assert (u + t)[|u + t| - n..] == (s + t)[|s + t| - n..];
    }
  }

  /**
   * A start silences commands for exactly two seconds; stopping keeps the
   * phrase and its number; the decision flow holds the recording until it
   * completes.
   */
  method RecorderScenario()
    returns (cooling: bool, cooled: bool, kept: string, number: nat, deciding: bool, pending: Option<string>,
             after: bool)
    ensures cooling && !cooled
    ensures kept == "enable vad" && number == 3
    ensures deciding && pending == Some("take1.wav") && !after
  {
    var st := new RecordingState();
    st.StartRecording("enable vad", 3, 1000);
    cooling := st.IsInCommandCooldown(2999);
    cooled := st.IsInCommandCooldown(3000);
    st.StopRecording();
    kept, number := st.phrase, st.phrase_number;
    st.StartDecisionFlow("take1.wav", 5000);
    deciding, pending := st.waiting_for_decision, st.pending_recording_path;
    st.CompleteDecisionFlow();
    after := st.waiting_for_decision;
  }

  /** The detection buffer never holds more than 20 seconds, keeping the newest samples. */
  method DetectionScenario(first: seq<real>, second: seq<real>) returns (b: seq<real>)
    requires |first| == 300000 && |second| == 40000
    ensures |b| == DetectionCapacity && b == (first + second)[20000..]
  {
    var st := new RecordingState();
    st.AddDetectionSamples(first);
    st.AddDetectionSamples(second);
    b := st.phrase_detection_buffer;
    assert [] + first == first;
  }

  // ---------------------------------------------------------------------
  // Edit distance and word similarity
  // ---------------------------------------------------------------------

  /**
   * `edit_distance`: the table of prefix distances, where equal characters
   * take the diagonal cell and different ones one more than the cheapest
   * neighbour.
   */
  method EditDistanceTable(s1: string, s2: string) returns (d: nat)
    ensures d == EditDistance(s1, s2)
  {
    var m, n := |s1|, |s2|;
    var dp := new nat[m + 1, n + 1];
    for i := 0 to m + 1
      invariant forall r :: 0 <= r < i ==> dp[r, 0] == r
    {
      dp[i, 0] := i;
    }
    for j := 0 to n + 1
      invariant forall r :: 0 <= r <= m ==> dp[r, 0] == r
      invariant forall c :: 0 <= c < j ==> dp[0, c] == c
    {
      dp[0, j] := j;
    }
    forall c | 0 <= c <= n ensures dp[0, c] == PrefixDistance(s1, s2, 0, c) {
      PrefixDistanceBorder(s1, s2, 0, c);
    }
    for i := 1 to m + 1
      invariant forall r :: 0 <= r <= m ==> dp[r, 0] == r
      invariant forall r, c :: 0 <= r < i && 0 <= c <= n ==> dp[r, c] == PrefixDistance(s1, s2, r, c)
    {
      PrefixDistanceBorder(s1, s2, i, 0);
      for j := 1 to n + 1
        invariant forall r :: 0 <= r <= m ==> dp[r, 0] == r
        invariant forall r, c :: 0 <= r < i && 0 <= c <= n ==> dp[r, c] == PrefixDistance(s1, s2, r, c)
        invariant forall c :: 0 <= c < j ==> dp[i, c] == PrefixDistance(s1, s2, i, c)
      {
        if s1[i - 1] == s2[j - 1] {
          dp[i, j] := dp[i - 1, j - 1];
          PrefixDistanceMatched(s1, s2, i, j);
        } else {
          dp[i, j] := 1 + Min3(dp[i - 1, j], dp[i, j - 1], dp[i - 1, j - 1]);
          PrefixDistanceStep(s1, s2, i, j);
        }
      }
    }
    d := dp[m, n];
    assert s1[..m] == s1 && s2[..n] == s2;
  }

  lemma PrefixDistanceMatched(a: string, b: string, i: nat, j: nat)
    requires 1 <= i <= |a| && 1 <= j <= |b| && a[i - 1] == b[j - 1]
    ensures PrefixDistance(a, b, i, j) == PrefixDistance(a, b, i - 1, j - 1)
  {
    EditDistanceMatchedLast(a[..i], b[..j]);
    assert a[..i][..i - 1] == a[..i - 1] && b[..j][..j - 1] == b[..j - 1];
  }

  function Abs(x: int): nat { if x < 0 then -x else x }

  /**
   * `words_are_similar`: two non-empty words whose lengths are not too far
   * apart, with at most 30% of the longer length in edits.
   */
  function WordsAreSimilar(w1: string, w2: string): (b: bool)
    ensures |w1| == 0 || |w2| == 0 ==> !b
    ensures b ==> 10 * EditDistance(w1, w2) <= 3 * Max(|w1|, |w2|)
    ensures |w1| > 0 && |w2| > 0 && 10 * EditDistance(w1, w2) <= 3 * Max(|w1|, |w2|) ==> b
  {
    if |w1| == 0 || |w2| == 0 then false
    else
      var diff := Abs(|w1| - |w2|);
      var shorter := if |w1| <= |w2| then |w1| else |w2|;
      if diff > 2 && diff > shorter / 2 then
        EditDistanceLower(w1, w2);
        false
      else
        var dist := EditDistance(w1, w2);
        var longer := Max(|w1|, |w2|);
        Ratio(dist, longer);
        dist as real / longer as real <= 0.3
  }

  lemma Ratio(d: nat, l: nat)
    requires l > 0
    ensures d as real / l as real <= 0.3 <==> 10 * d <= 3 * l
  {
    var q := d as real / l as real;
    var lr := l as real;
    assert q * lr == d as real;
    if q <= 0.3 {
      assert q * lr <= 0.3 * lr;
      assert (10 * d) as real == 10.0 * (q * lr) <= 3.0 * lr;
    } else {
      assert q * lr > 0.3 * lr;
      assert (10 * d) as real == 10.0 * (q * lr) > 3.0 * lr;
    }
  }

  /** Similarity does not depend on the order of the words. */
  lemma WordsAreSimilarSymmetric(w1: string, w2: string)
    ensures WordsAreSimilar(w1, w2) == WordsAreSimilar(w2, w1)
  {
    EditDistanceSymmetric(w1, w2);
  }

  /** A non-empty word is similar to itself. */
  lemma WordsAreSimilarReflexive(w: string)
    requires |w| > 0
    ensures WordsAreSimilar(w, w)
  {
    EditDistanceSelf(w);
  }

  /** One dropped letter in a nine-letter word is similar; one changed letter in three is not. */
  lemma SimilarityExamples(a: string, b: string, c: string, e: string)
    requires a == "recording" && b == "recordin" && c == "vad" && e == "bad"
    ensures WordsAreSimilar(a, b)
    ensures !WordsAreSimilar(c, e)
  {
    OneDeletion(b, 'g', "");
    assert b + ['g'] + "" == a && b + "" == b;
    EditDistanceZeroIff(c, e);
    assert c != e by { assert c[0] != e[0]; }
  }

  // ---------------------------------------------------------------------
  // Normalisation for comparison
  // ---------------------------------------------------------------------

  /** The substitutions for common mishearings, applied in this order to the whole text. */
  const Substitutions: seq<(string, string)> := [
    ("label", "enable"), ("able", "enable"), ("unable", "enable"), ("this able", "disable"),
    ("disabled", "disable"), ("according", "recording"), ("record", "recording"),
    ("transcript", "transcripts"), ("transcription", "transcripts"), ("modal", "model"),
    ("models", "model"), ("fresh hold", "threshold"), ("thresh hold", "threshold"),
    ("sense activity", "sensitivity"), ("punk situation", "punctuation"), ("puncture nation", "punctuation"),
    ("bad", "vad"), ("pad", "vad"), ("mad", "vad"), ("lad", "vad"), ("dad", "vad"), ("had", "vad"),
    ("sad", "vad"), ("fad", "vad"), ("bat", "vad"), ("pat", "vad"), ("mat", "vad"), ("lat", "vad"),
    ("dat", "vad"), ("hat", "vad"), ("sat", "vad"), ("fat", "vad")]

  /** Each substitution in turn, as `str::replace` does it. */
  function Substitute(s: string, subs: seq<(string, string)>): string
    decreases |subs|
  {
    if |subs| == 0 then s else Substitute(ReplaceAll(s, subs[0].0, subs[0].1), subs[1..])
  }

  predicate IsPunctuation(c: char)
  {
    c == '.' || c == ',' || c == '!' || c == '?' || c == ';' || c == ':'
  }

  /** Removing the six punctuation characters. */
  function StripPunctuation(s: string): (r: string)
    ensures forall i :: 0 <= i < |r| ==> !IsPunctuation(r[i])
  {
    if |s| == 0 then ""
    else (if IsPunctuation(s[0]) then "" else [s[0]]) + StripPunctuation(s[1..])
  }

  /** A replacement that brings in no punctuation leaves none behind. */
  lemma {:induction false} ReplaceKeepsNoPunctuation(s: string, from: string, to: string)
    requires forall i :: 0 <= i < |s| ==> !IsPunctuation(s[i])
    requires forall i :: 0 <= i < |to| ==> !IsPunctuation(to[i])
    ensures forall i :: 0 <= i < |ReplaceAll(s, from, to)| ==> !IsPunctuation(ReplaceAll(s, from, to)[i])
    decreases |s|
  {
    if |from| == 0 {
      if |s| > 0 { ReplaceKeepsNoPunctuation(s[1..], from, to); }
    } else if |s| >= |from| {
      if s[..|from|] == from {
        ReplaceKeepsNoPunctuation(s[|from|..], from, to);
      } else {
        ReplaceKeepsNoPunctuation(s[1..], from, to);
      }
    }
  }

  /** Punctuation-free text stays so inside any part of it. */
  lemma PartNoPunctuation(s: string, r: string)
    requires Contains(s, r) && forall i :: 0 <= i < |s| ==> !IsPunctuation(s[i])
    ensures forall i :: 0 <= i < |r| ==> !IsPunctuation(r[i])
  {
    var k :| 0 <= k <= |s| - |r| && OccursAt(s, r, k);
    forall i | 0 <= i < |r| ensures !IsPunctuation(r[i]) {
      assert r[i] == s[k + i];
    }
  }

  /** Punctuation removed, double spaces made single and the ends trimmed. */
  function CleanText(s: string): (r: string)
    ensures forall i :: 0 <= i < |r| ==> !IsPunctuation(r[i])
    ensures |r| > 0 ==> !IsSpace(r[0]) && !IsSpace(r[|r| - 1])
  {
    var stripped := StripPunctuation(s);
    ReplaceKeepsNoPunctuation(stripped, "  ", " ");
    var spaced := ReplaceAll(stripped, "  ", " ");
    PartNoPunctuation(spaced, Trim(spaced));
    Trim(spaced)
  }

  /** What `normalize_for_stt_comparison` returns. */
  function NormalizeForStt(text: string): (r: string)
    ensures forall i :: 0 <= i < |r| ==> !IsPunctuation(r[i])
    ensures |r| > 0 ==> !IsSpace(r[0]) && !IsSpace(r[|r| - 1])
  {
    CleanText(Substitute(ToLower(text), Substitutions))
  }

  /** The substitution loop: each pair replaced in the given order. */
  method ApplySubstitutions(text: string, subs: seq<(string, string)>) returns (r: string)
    ensures r == Substitute(text, subs)
  {
    r := text;
    for k := 0 to |subs|
      invariant Substitute(r, subs[k..]) == Substitute(text, subs)
    {
      assert subs[k..][1..] == subs[k + 1..];
      r := ReplaceAll(r, subs[k].0, subs[k].1);
    }
  }

  /** `normalize_for_stt_comparison`: the substitutions, then punctuation, double spaces and the ends. */
  method NormalizeForSttComparison(text: string) returns (r: string)
    ensures r == NormalizeForStt(text)
  {
    var normalized := ApplySubstitutions(ToLower(text), Substitutions);
    r := CleanText(normalized);
  }

  // ---------------------------------------------------------------------
  // Phrase detection
  // ---------------------------------------------------------------------

  /** The window's words that equal or resemble the target word at the same place. */
  function Matches(window: seq<string>, target: seq<string>): (n: nat)
    requires |window| == |target|
    ensures n <= |target|
  {
    if |target| == 0 then 0
    else
      var k := |target| - 1;
      Matches(window[..k], target[..k])
        + (if window[k] == target[k] || WordsAreSimilar(window[k], target[k]) then 1 else 0)
  }

  /** At least 70% of the target words match the window starting at word `i`. */
  predicate WindowMatches(words: seq<string>, target: seq<string>, i: nat)
    requires |target| > 0 && i + |target| <= |words|
  {
    Matches(words[i..i + |target|], target) as real / |target| as real >= 0.7
  }

  /** Some window of `words` as long as the non-empty `target` matches it. */
  predicate SomeWindowMatches(words: seq<string>, target: seq<string>)
  {
    0 < |target| <= |words| && exists i :: 0 <= i <= |words| - |target| && WindowMatches(words, target, i)
  }

  /**
   * When `phrase_detected_in_transcription` reports the phrase: the
   * lowercased transcription contains the lowercased target, or the
   * normalised one contains the normalised target, or some window of the
   * normalised transcription words matches at least 70% of the target words.
   */
  predicate PhraseDetected(transcription: string, target: string)
  {
    var tl := ToLower(transcription);
    var gl := ToLower(target);
    Contains(tl, gl)
    || Contains(NormalizeForStt(tl), NormalizeForStt(gl))
    || SomeWindowMatches(SplitWhitespace(NormalizeForStt(tl)), SplitWhitespace(NormalizeForStt(gl)))
  }

  /** The matching words of one window, counted in a loop. */
  method CountMatches(window: seq<string>, target: seq<string>) returns (matches: nat)
    requires |window| == |target|
    ensures matches == Matches(window, target)
  {
    matches := 0;
    for j := 0 to |target|
      invariant matches == Matches(window[..j], target[..j])
    {
      assert window[..j + 1][..j] == window[..j] && target[..j + 1][..j] == target[..j];
      if window[j] == target[j] || WordsAreSimilar(window[j], target[j]) {
        matches := matches + 1;
      }
    }
    assert window[..|target|] == window && target[..|target|] == target;
  }

  /** The windows from left to right, stopping at the first that matches. */
  method FindMatchingWindow(words: seq<string>, target: seq<string>) returns (b: bool)
    ensures b == SomeWindowMatches(words, target)
  {
    if |target| == 0 || |target| > |words| {
      return false;
    }
    for i := 0 to |words| - |target| + 1
      invariant forall k :: 0 <= k < i ==> !WindowMatches(words, target, k)
    {
      var matches := CountMatches(words[i..i + |target|], target);
      if matches as real / |target| as real >= 0.7 {
        assert WindowMatches(words, target, i);
        return true;
      }
    }
    return false;
  }

  /** `phrase_detected_in_transcription`: the direct checks, then the word windows. */
  method PhraseDetectedInTranscription(transcription: string, target: string) returns (b: bool)
    ensures b == PhraseDetected(transcription, target)
  {
    var tl := ToLower(transcription);
    var gl := ToLower(target);
    if Contains(tl, gl) {
      return true;
    }
    var nt := NormalizeForSttComparison(tl);
    var ng := NormalizeForSttComparison(gl);
    if Contains(nt, ng) {
      return true;
    }
    b := FindMatchingWindow(SplitWhitespace(nt), SplitWhitespace(ng));
  }

  /** Case does not matter for a direct hit: "Enable VAD" contains "enable vad". */
  lemma DetectedIgnoringCase(t: string, g: string)
    requires t == "Enable VAD" && g == "enable vad"
    ensures PhraseDetected(t, g)
  {
    assert ToLower(t) == g;
    ToLowerIdentity(g);
    ContainsSelf(g);
    DirectHit(t, g);
  }

  /** A direct hit is always detected. */
  lemma DirectHit(t: string, g: string)
    requires Contains(ToLower(t), ToLower(g))
    ensures PhraseDetected(t, g)
  {
  }

  /** Extra words around the target do not matter. */
  lemma DetectedAmongWords(before: string, g: string, after: string)
    requires NoUpper(before) && NoUpper(g) && NoUpper(after)
    ensures PhraseDetected(before + g + after, g)
  {
    NoUpperConcat(before, g);
    NoUpperConcat(before + g, after);
    ToLowerIdentity(before + g + after);
    ToLowerIdentity(g);
    OccursInMiddle(before, g, after);
    DirectHit(before + g + after, g);
  }

  /** Without a direct hit, a target longer than the transcription in words is never detected. */
  lemma LongerTargetMissed(transcription: string, target: string)
    requires !Contains(ToLower(transcription), ToLower(target))
    requires !Contains(NormalizeForStt(ToLower(transcription)), NormalizeForStt(ToLower(target)))
    requires |SplitWhitespace(NormalizeForStt(ToLower(target)))| > |SplitWhitespace(NormalizeForStt(ToLower(transcription)))|
    ensures !PhraseDetected(transcription, target)
  {
  }

  // ---------------------------------------------------------------------
  // Padding with silence
  // ---------------------------------------------------------------------

  function Zeros(n: nat): (z: seq<real>)
    ensures |z| == n && forall i :: 0 <= i < n ==> z[i] == 0.0
  {
    seq(n, _ => 0.0)
  }

  /** Silence before and after the audio, `before` samples of it in front, up to `min_samples` in all. */
  predicate PaddedAround(audio: seq<real>, min_samples: nat, before: nat, r: seq<real>)
  {
    |r| == min_samples && before + |audio| <= min_samples
    && r[before..before + |audio|] == audio
    && (forall i :: 0 <= i < before ==> r[i] == 0.0)
    && (forall i :: before + |audio| <= i < min_samples ==> r[i] == 0.0)
  }

  function Padded(audio: seq<real>, before: nat, after: nat): (r: seq<real>)
    ensures PaddedAround(audio, before + |audio| + after, before, r)
  {
    var r := Zeros(before) + audio + Zeros(after);
    assert r[before..before + |audio|] == audio;
    r
  }

  /** `pad_audio_to_minimum_duration`: a quarter of the missing samples go in front. */
  function PadAudioToMinimumDuration(audio: seq<real>, min_samples: nat): (r: seq<real>)
    ensures |audio| >= min_samples ==> r == audio
    ensures |audio| < min_samples ==> PaddedAround(audio, min_samples, (min_samples - |audio|) / 4, r)
  {
    if |audio| >= min_samples then audio
    else
      var needed := min_samples - |audio|;
      var before := needed / 4;
      Padded(audio, before, needed - before)
  }

  /** `pad_audio_with_pre_phrase_emphasis`: 60% of the missing samples go in front. */
  function PadAudioWithPrePhraseEmphasis(audio: seq<real>, min_samples: nat): (r: seq<real>)
    ensures |audio| >= min_samples ==> r == audio
    ensures |audio| < min_samples ==> PaddedAround(audio, min_samples, (min_samples - |audio|) * 6 / 10, r)
  {
    if |audio| >= min_samples then audio
    else
      var needed := min_samples - |audio|;
      var before := needed * 6 / 10;
      Padded(audio, before, needed - before)
  }

  /** Padding never shortens, reaches the minimum, and leaves an already long recording alone. */
  lemma PadLength(audio: seq<real>, min_samples: nat)
    ensures |PadAudioToMinimumDuration(audio, min_samples)| == Max(|audio|, min_samples)
    ensures |PadAudioWithPrePhraseEmphasis(audio, min_samples)| == Max(|audio|, min_samples)
    ensures PadAudioToMinimumDuration(PadAudioToMinimumDuration(audio, min_samples), min_samples)
      == PadAudioToMinimumDuration(audio, min_samples)
  {
  }

  /** Four samples padded to 1000: 249 zeros, the samples, then 747 zeros. */
  lemma PadExample(audio: seq<real>)
    requires audio == [0.1, -0.1, 0.2, -0.2]
    ensures var r := PadAudioToMinimumDuration(audio, 1000);
      |r| == 1000 && r[249] == 0.1 && r[250] == -0.1 && 0.1 in r && -0.1 in r
  {
    var r := PadAudioToMinimumDuration(audio, 1000);
    assert r[249..253] == audio;
    assert r[249] == 0.1 && r[250] == -0.1;
  }
}
