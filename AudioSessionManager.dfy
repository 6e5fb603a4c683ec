// The audio session manager: one recording session at a time with a
// Recording/Paused/Idle state, a sample buffer fed by the capture callback,
// transcript segments, the history of stopped sessions and its statistics.
// Clocks, UUIDs, the date directory and the outcome of the file system
// calls are parameters.

module AudioSessionManager {
  import opened Common
  import Archive = AudioArchive
  import Storage = AudioStorage

  // ---------------------------------------------------------------------
  // Data model
  // ---------------------------------------------------------------------

  datatype AudioSource = Microphone | SystemAudio | Mixed | Device(name: string)

  datatype SessionState = Idle | Recording | Paused | Stopped | Error(reason: string)

  /** `TranscriptSegment`; times are offsets in milliseconds. */
  datatype TranscriptSegment = TranscriptSegment(
    id: string, start_time: nat, end_time: nat, text: string, confidence: real,
    speaker_id: Option<string>, language: Option<string>, word_count: nat, is_final: bool)

  /** `AudioRecordingSession`; times are in milliseconds, the duration too. */
  datatype AudioRecordingSession = AudioRecordingSession(
    id: string, name: string, description: Option<string>, start_time: int, end_time: Option<int>,
    duration: nat, audio_source: AudioSource, file_path: string, file_size: nat,
    format_info: Archive.AudioFormatInfo, transcript_segments: seq<TranscriptSegment>, tags: seq<string>,
    state: SessionState)

  datatype SessionError = AlreadyRecording | StorageFailure

  /** `StorageStats`. */
  datatype StorageStats = StorageStats(
    total_sessions: nat, total_size_bytes: nat, total_duration: nat, compression_ratio: real,
    oldest_session: Option<int>, newest_session: Option<int>)

  /** The format a new session is created with: 44.1 kHz mono 16-bit WAV. */
  const InitialFormat: Archive.AudioFormatInfo := Archive.AudioFormatInfo(44100, 1, 16, Archive.WAV)

  /** The longest sanitised name. */
  const MaxNameLength: nat := 50

  // ---------------------------------------------------------------------
  // File names
  // ---------------------------------------------------------------------

  /** `sanitize_filename`: unsafe characters become `_`, then at most 50 characters are kept. */
  function SanitizeFilename(name: string): (r: string)
    ensures |r| == if |name| < MaxNameLength then |name| else MaxNameLength
    ensures forall i :: 0 <= i < |r| ==> Storage.SafeChar(r[i])
    ensures forall i :: 0 <= i < |r| ==> (r[i] == name[i] <==> Storage.SafeChar(name[i]))
  {
    Take(Storage.SanitizeFilename(name), MaxNameLength)
  }

  /** A sanitised name is a fixed point, and a short safe name is kept as it is. */
  lemma {:induction false} SanitizeFilenameIdempotent(name: string)
    ensures SanitizeFilename(SanitizeFilename(name)) == SanitizeFilename(name)
    ensures |name| <= MaxNameLength && (forall i :: 0 <= i < |name| ==> Storage.SafeChar(name[i])) ==>
      SanitizeFilename(name) == name
  {
    var r := SanitizeFilename(name);
    assert forall i :: 0 <= i < |r| ==> Storage.SafeChar(r[i]);
    Storage.SanitizeIdempotent(r);
    Storage.SanitizeIdempotent(name);
  }

  /** "Test/Session:With*Invalid?Chars" becomes "Test_Session_With_Invalid_Chars". */
  lemma SanitizeExample(name: string)
    requires name == "Test/Session:With*Invalid?Chars"
    ensures SanitizeFilename(name) == "Test_Session_With_Invalid_Chars"
  {
    var r := SanitizeFilename(name);
    var e := "Test_Session_With_Invalid_Chars";
    assert |r| == |e|;
    forall i | 0 <= i < |e| ensures r[i] == e[i] {
      assert Storage.SafeChar(name[i]) <==> name[i] == e[i];
    }
  }

  /** The directory a new session's files go to, under `<storage>/sessions/<date>/`. */
  function SessionDirectory(storage_dir: string, date_dir: string, name: string, id: string): (dir: string)
    ensures StartsWith(dir, storage_dir + "/sessions/" + date_dir + "/")
    ensures EndsWith(dir, "_" + id)
  {
    var head := storage_dir + "/sessions/" + date_dir + "/";
    var tail := "_" + id;
    var dir := head + (SanitizeFilename(name) + tail);
    StartsWithConcat(head, SanitizeFilename(name) + tail);
    assert dir == (head + SanitizeFilename(name)) + tail;
    EndsWithConcat(head + SanitizeFilename(name), tail);
    dir
  }

  // ---------------------------------------------------------------------
  // Silence removal
  // ---------------------------------------------------------------------

  /** A segment `remove_silence_from_audio` takes: it starts inside the samples and ends within them. */
  predicate InBounds(len: nat, seg: (nat, nat))
  {
    seg.0 < len && seg.1 <= len
  }

  /** An in-bounds segment whose end is before its start: slicing it panics. */
  predicate Inverted(len: nat, seg: (nat, nat))
  {
    InBounds(len, seg) && seg.1 < seg.0
  }

  /**
   * What `remove_silence_from_audio` returns for the first segments: the
   * in-bounds segments' samples, concatenated in order; `None` when an
   * in-bounds segment is inverted, where the slice panics.
   */
  function Cleaned(samples: seq<real>, segs: seq<(nat, nat)>): (r: Option<seq<real>>)
    ensures r.None? <==> exists k :: 0 <= k < |segs| && Inverted(|samples|, segs[k])
    decreases |segs|
  {
    if |segs| == 0 then Some([])
    else
      var init := segs[..|segs| - 1];
      var seg := segs[|segs| - 1];
      var before := Cleaned(samples, init);
      assert forall k :: 0 <= k < |init| ==> init[k] == segs[k];
      if before.None? then
        assert exists k :: 0 <= k < |init| && Inverted(|samples|, init[k]);
        None
      else if !InBounds(|samples|, seg) then Some(before.value)
      else if seg.1 < seg.0 then None
      else Some(before.value + samples[seg.0..seg.1])
  }

  /** The samples `Cleaned` keeps: the summed lengths of the in-bounds segments. */
  function KeptLength(len: nat, segs: seq<(nat, nat)>): nat
  {
    if |segs| == 0 then 0
    else
      var seg := segs[|segs| - 1];
      KeptLength(len, segs[..|segs| - 1]) + (if InBounds(len, seg) && seg.0 <= seg.1 then seg.1 - seg.0 else 0)
  }

  /** `remove_silence_from_audio`; `None` when it panics on an inverted segment. */
  method RemoveSilenceFromAudio(samples: seq<real>, segs: seq<(nat, nat)>) returns (r: Option<seq<real>>)
    ensures r == Cleaned(samples, segs)
  {
    var cleaned: seq<real> := [];
    var k := 0;
    while k < |segs|
      invariant 0 <= k <= |segs|
      invariant Cleaned(samples, segs[..k]) == Some(cleaned)
    {
      var seg := segs[k];
      assert segs[..k + 1][..k] == segs[..k];
      if seg.0 < |samples| && seg.1 <= |samples| {
        if seg.1 < seg.0 {
          assert segs[..k + 1][k] == seg;
          assert Cleaned(samples, segs[..k + 1]).None?;
          assert Cleaned(samples, segs).None? by {
            assert segs[k] == seg && Inverted(|samples|, segs[k]);
          }
          return None;
        }
        cleaned := cleaned + samples[seg.0..seg.1];
      }
      k := k + 1;
    }
    assert segs[..k] == segs;
    return Some(cleaned);
  }

  /** Without inverted segments the result holds exactly the samples of the in-bounds segments. */
  lemma {:induction false} CleanedLength(samples: seq<real>, segs: seq<(nat, nat)>)
    requires forall k :: 0 <= k < |segs| ==> segs[k].0 <= segs[k].1
    ensures Cleaned(samples, segs).Some?
    ensures |Cleaned(samples, segs).value| == KeptLength(|samples|, segs)
    decreases |segs|
  {
    if |segs| > 0 {
      var init := segs[..|segs| - 1];
      assert forall k :: 0 <= k < |init| ==> init[k] == segs[k];
      CleanedLength(samples, init);
    }
  }

  /** The result is never longer than the summed segment lengths, and segments out of range add nothing. */
  lemma {:induction false} CleanedSkipsOutOfRange(samples: seq<real>, segs: seq<(nat, nat)>, seg: (nat, nat))
    requires !InBounds(|samples|, seg)
    ensures Cleaned(samples, segs + [seg]) == Cleaned(samples, segs)
  {
    assert (segs + [seg])[..|segs|] == segs;
  }

  /** Speech segments from the energy detector start before they end, so silence removal never panics on them. */
  lemma DetectedSegmentsNeverPanic(samples: seq<real>, segs: seq<(nat, nat)>)
    requires forall k :: 0 <= k < |segs| ==> segs[k].0 < segs[k].1
    ensures Cleaned(samples, segs).Some?
  {
  }

  /** A segment `(3, 1)` inside four samples is inverted, so the slice panics. */
  lemma InvertedSegmentPanics(samples: seq<real>)
    requires |samples| == 4
    ensures Cleaned(samples, [(0, 2), (3, 1)]).None?
    ensures Cleaned(samples, [(0, 2), (6, 1)]) == Some(samples[0..2])
  {
    var segs: seq<(nat, nat)> := [(0, 2), (3, 1)];
    assert Inverted(|samples|, segs[1]);
    var skip: seq<(nat, nat)> := [(0, 2), (6, 1)];
    var one: seq<(nat, nat)> := [(0, 2)];
    assert skip[..1] == one && one[..0] == [];
    assert Cleaned(samples, one) == Some([] + samples[0..2]);
    assert [] + samples[0..2] == samples[0..2];
  }

  // ---------------------------------------------------------------------
  // Storage statistics
  // ---------------------------------------------------------------------

  function SizeSum(h: seq<AudioRecordingSession>): nat
  {
    if |h| == 0 then 0 else SizeSum(h[..|h| - 1]) + h[|h| - 1].file_size
  }

  function DurationSum(h: seq<AudioRecordingSession>): nat
  {
    if |h| == 0 then 0 else DurationSum(h[..|h| - 1]) + h[|h| - 1].duration
  }

  /** The earliest start time: present exactly when there is a session, attained and a lower bound. */
  function OldestStart(h: seq<AudioRecordingSession>): (r: Option<int>)
    ensures r.None? <==> |h| == 0
    ensures r.Some? ==> (exists i :: 0 <= i < |h| && h[i].start_time == r.value)
    ensures r.Some? ==> forall i :: 0 <= i < |h| ==> r.value <= h[i].start_time
  {
    if |h| == 0 then None
    else
      var init := h[..|h| - 1];
      var last := h[|h| - 1].start_time;
      var before := OldestStart(init);
      assert forall i :: 0 <= i < |init| ==> init[i] == h[i];
      if before.Some? && before.value <= last then before else Some(last)
  }

  /** The latest start time: present exactly when there is a session, attained and an upper bound. */
  function NewestStart(h: seq<AudioRecordingSession>): (r: Option<int>)
    ensures r.None? <==> |h| == 0
    ensures r.Some? ==> (exists i :: 0 <= i < |h| && h[i].start_time == r.value)
    ensures r.Some? ==> forall i :: 0 <= i < |h| ==> h[i].start_time <= r.value
  {
    if |h| == 0 then None
    else
      var init := h[..|h| - 1];
      var last := h[|h| - 1].start_time;
      var before := NewestStart(init);
      assert forall i :: 0 <= i < |init| ==> init[i] == h[i];
      if before.Some? && last < before.value then before else Some(last)
  }

  /** `get_storage_stats` over the session history. */
  function StorageStatsOf(h: seq<AudioRecordingSession>): (r: StorageStats)
    ensures r.total_sessions == |h| && r.compression_ratio == 1.0
    ensures r.total_size_bytes == SizeSum(h) && r.total_duration == DurationSum(h)
    ensures r.oldest_session.Some? <==> |h| > 0
    ensures r.oldest_session.Some? ==> r.newest_session.Some? && r.oldest_session.value <= r.newest_session.value
  {
    var oldest := OldestStart(h);
    var newest := NewestStart(h);
    StorageStats(|h|, SizeSum(h), DurationSum(h), 1.0, oldest, newest)
  }

  /** One more stopped session adds its size and duration and bounds the start times. */
  lemma StorageStatsAppend(h: seq<AudioRecordingSession>, s: AudioRecordingSession)
    ensures var r := StorageStatsOf(h + [s]);
      r.total_sessions == |h| + 1
      && r.total_size_bytes == StorageStatsOf(h).total_size_bytes + s.file_size
      && r.total_duration == StorageStatsOf(h).total_duration + s.duration
      && r.oldest_session.value <= s.start_time <= r.newest_session.value
  {
    var h' := h + [s];
    assert h'[..|h'| - 1] == h;
    assert h'[|h'| - 1] == s;
  }

  // ---------------------------------------------------------------------
  // The manager
  // ---------------------------------------------------------------------

  /** `AudioSessionManager`; the audio, STT and VAD services and the storage back end are not modelled. */
  class SessionManager {
    var current_session: Option<AudioRecordingSession>
    var recording_state: SessionState
    var audio_buffer: seq<real>
    var session_history: seq<AudioRecordingSession>
    var actual_sample_rate: Option<nat>
    const storage_dir: string
    const default_audio_source: AudioSource

    /**
     * While a session is open its state is the manager's recording state,
     * Recording or Paused; the manager is never Stopped or in error, and
     * every session in the history is stopped with an end time.
     */
    predicate Valid()
      reads this
    {
      (recording_state == Idle || recording_state == Recording || recording_state == Paused)
      && (current_session.Some? ==>
            current_session.value.state == recording_state
            && (recording_state == Recording || recording_state == Paused))
      && (forall k :: 0 <= k < |session_history| ==>
            session_history[k].state == Stopped && session_history[k].end_time.Some?)
    }

    /** `AudioSessionManager::new`. */
    constructor (storage_dir: string, default_audio_source: AudioSource)
      ensures Valid()
      ensures this.storage_dir == storage_dir && this.default_audio_source == default_audio_source
      ensures current_session == None && recording_state == Idle && audio_buffer == []
      ensures session_history == [] && actual_sample_rate == None
    {
      this.storage_dir := storage_dir;
      this.default_audio_source := default_audio_source;
      current_session := None;
      recording_state := Idle;
      audio_buffer := [];
      session_history := [];
      actual_sample_rate := None;
    }

    /** `is_recording`: the state is Recording (a paused session does not count). */
    function IsRecording(): (b: bool)
      reads this
      ensures b <==> recording_state == Recording
    {
      recording_state == Recording
    }

    /**
     * `start_recording_session`. It fails with AlreadyRecording only while
     * Recording, and with StorageFailure, changing nothing, when the session
     * directory cannot be created. Otherwise the new session replaces any
     * current one (a paused session is dropped), the sample rate is reset and
     * the buffer is left as it was.
     */
    method StartRecordingSession(name: string, description: Option<string>, audio_source: Option<AudioSource>,
                                 tags: seq<string>, id: string, now: int, date_dir: string, dir_created: bool)
      returns (r: Result<string, SessionError>)
      requires Valid()
      modifies this
      ensures Valid()
      ensures old(recording_state) == Recording ==> r == Err(AlreadyRecording)
      ensures old(recording_state) != Recording && !dir_created ==> r == Err(StorageFailure)
      ensures r.Err? ==> unchanged(this)
      ensures r.Ok? <==> old(recording_state) != Recording && dir_created
      ensures r.Ok? ==>
        r.value == id && recording_state == Recording && actual_sample_rate == None
        && audio_buffer == old(audio_buffer) && session_history == old(session_history)
        && current_session == Some(AudioRecordingSession(
             id, name, description, now, None, 0,
             if audio_source.Some? then audio_source.value else default_audio_source,
             SessionDirectory(storage_dir, date_dir, name, id) + "/session.wav", 0, InitialFormat, [], tags,
             Recording))
    {
      if IsRecording() {
        return Err(AlreadyRecording);
      }
      if !dir_created {
        return Err(StorageFailure);
      }
      var source := if audio_source.Some? then audio_source.value else default_audio_source;
      var path := SessionDirectory(storage_dir, date_dir, name, id) + "/session.wav";
      actual_sample_rate := None;
      recording_state := Recording;
      current_session := Some(AudioRecordingSession(
        id, name, description, now, None, 0, source, path, 0, InitialFormat, [], tags, Recording));
      return Ok(id);
    }

    /**
     * The capture callback: the first frame fixes the actual sample rate,
     * and samples are kept only while Recording.
     */
    method OnAudioFrame(samples: seq<real>, sample_rate: nat)
      requires Valid()
      modifies this
      ensures Valid()
      ensures actual_sample_rate == if old(actual_sample_rate).None? then Some(sample_rate) else old(actual_sample_rate)
      ensures audio_buffer == if old(recording_state) == Recording then old(audio_buffer) + samples else old(audio_buffer)
      ensures current_session == old(current_session) && recording_state == old(recording_state)
      ensures session_history == old(session_history)
    {
      if actual_sample_rate.None? {
        actual_sample_rate := Some(sample_rate);
      }
      if recording_state == Recording {
        audio_buffer := audio_buffer + samples;
      }
    }

    /**
     * `stop_recording_session`. Without a session it returns `Ok(None)` and
     * changes nothing. Otherwise the session is taken out; it gets its end
     * time, a duration that is never negative, the Stopped state and the
     * captured sample rate. When the outputs are saved (`saved`), the file
     * path and size of the raw recording are those given (only when samples
     * were captured), the buffer is emptied, the manager goes Idle and the
     * session joins the history. When saving fails the session is lost and
     * nothing else changes.
     */
    method StopRecordingSession(now: int, saved: bool, raw_path: string, raw_size: nat)
      returns (r: Result<Option<AudioRecordingSession>, SessionError>)
      requires Valid()
      modifies this
      ensures Valid()
      ensures old(current_session).None? ==> r == Ok(None) && unchanged(this)
      ensures old(current_session).Some? && !saved ==>
        r == Err(StorageFailure) && current_session == None && recording_state == old(recording_state)
        && audio_buffer == old(audio_buffer) && session_history == old(session_history)
        && actual_sample_rate == old(actual_sample_rate)
      ensures old(current_session).Some? && saved ==>
        var s := old(current_session).value;
        var format := if old(actual_sample_rate).Some? then s.format_info.(sample_rate := old(actual_sample_rate).value)
                      else s.format_info;
        var stopped := s.(end_time := Some(now), duration := if now >= s.start_time then now - s.start_time else 0,
                          state := Stopped, format_info := format);
        var out := if |old(audio_buffer)| > 0 then stopped.(file_path := raw_path, file_size := raw_size) else stopped;
        r == Ok(Some(out)) && current_session == None && recording_state == Idle && audio_buffer == []
        && session_history == old(session_history) + [out] && actual_sample_rate == old(actual_sample_rate)
    {
      if current_session.None? {
        return Ok(None);
      }
      var s := current_session.value;
      current_session := None;
      var duration := if now >= s.start_time then now - s.start_time else 0;
      var format := if actual_sample_rate.Some? then s.format_info.(sample_rate := actual_sample_rate.value)
                    else s.format_info;
      var out := s.(end_time := Some(now), duration := duration, state := Stopped, format_info := format);
      if !saved {
        return Err(StorageFailure);
      }
      if |audio_buffer| > 0 {
        out := out.(file_path := raw_path, file_size := raw_size);
      }
      audio_buffer := [];
      recording_state := Idle;
      session_history := session_history + [out];
      return Ok(Some(out));
    }

    /** `pause_recording_session`: only a Recording session pauses; otherwise false and nothing changes. */
    method PauseRecordingSession() returns (paused: bool)
      requires Valid()
      modifies this
      ensures Valid()
      ensures paused <==> old(current_session).Some? && old(current_session).value.state == Recording
      ensures paused ==> current_session == Some(old(current_session).value.(state := Paused)) && recording_state == Paused
      ensures !paused ==> current_session == old(current_session) && recording_state == old(recording_state)
      ensures audio_buffer == old(audio_buffer) && session_history == old(session_history)
      ensures actual_sample_rate == old(actual_sample_rate)
    {
      if current_session.Some? && current_session.value.state == Recording {
        current_session := Some(current_session.value.(state := Paused));
        recording_state := Paused;
        return true;
      }
      return false;
    }

    /** `resume_recording_session`: only a Paused session resumes; otherwise false and nothing changes. */
    method ResumeRecordingSession() returns (resumed: bool)
      requires Valid()
      modifies this
      ensures Valid()
      ensures resumed <==> old(current_session).Some? && old(current_session).value.state == Paused
      ensures resumed ==> current_session == Some(old(current_session).value.(state := Recording)) && recording_state == Recording
      ensures !resumed ==> current_session == old(current_session) && recording_state == old(recording_state)
      ensures audio_buffer == old(audio_buffer) && session_history == old(session_history)
      ensures actual_sample_rate == old(actual_sample_rate)
    {
      if current_session.Some? && current_session.value.state == Paused {
        current_session := Some(current_session.value.(state := Recording));
        recording_state := Recording;
        return true;
      }
      return false;
    }

    /**
     * `add_transcript_segment`: without a session nothing happens; otherwise a
     * final segment carrying the text's whitespace word count is appended.
     */
    method AddTranscriptSegment(text: string, confidence: real, start_time: nat, end_time: nat, id: string)
      requires Valid()
      modifies this
      ensures Valid()
      ensures old(current_session).None? ==> unchanged(this)
      ensures old(current_session).Some? ==>
        var s := old(current_session).value;
        current_session == Some(s.(transcript_segments := s.transcript_segments +
          [TranscriptSegment(id, start_time, end_time, text, confidence, None, None, |SplitWhitespace(text)|, true)]))
      ensures recording_state == old(recording_state) && audio_buffer == old(audio_buffer)
      ensures session_history == old(session_history) && actual_sample_rate == old(actual_sample_rate)
    {
      if current_session.Some? {
        var s := current_session.value;
        var segment := TranscriptSegment(id, start_time, end_time, text, confidence, None, None, |SplitWhitespace(text)|, true);
        current_session := Some(s.(transcript_segments := s.transcript_segments + [segment]));
      }
    }

    /** `get_storage_stats`. */
    function GetStorageStats(): (r: StorageStats)
      reads this
      ensures r.total_sessions == |session_history|
      ensures r.total_size_bytes == SizeSum(session_history) && r.total_duration == DurationSum(session_history)
    {
      StorageStatsOf(session_history)
    }
  }

  // ---------------------------------------------------------------------
  // Scenarios
  // ---------------------------------------------------------------------

  /**
   * Start, pause, a second pause, resume and stop: the second pause is
   * refused, starting again while Recording fails, and the stopped session
   * lands in the history with its duration.
   */
  method RecordingLifecycle() returns (paused: bool, paused_again: bool, resumed: bool, restart: Result<string, SessionError>,
                                       stats: StorageStats)
    ensures paused && !paused_again && resumed
    ensures restart == Err(AlreadyRecording)
    ensures stats.total_sessions == 1 && stats.total_duration == 5000 && stats.oldest_session == Some(1000)
  {
    var m := new SessionManager("/data", Microphone);
    var started := m.StartRecordingSession("Meeting", None, None, [], "s1", 1000, "2025/01/01", true);
    paused := m.PauseRecordingSession();
    paused_again := m.PauseRecordingSession();
    resumed := m.ResumeRecordingSession();
    assert m.current_session.Some? && m.current_session.value.start_time == 1000;
    restart := m.StartRecordingSession("Other", None, None, [], "s2", 2000, "2025/01/01", true);
    var stopped := m.StopRecordingSession(6000, true, "/data/raw_audio.wav", 0);
    stats := m.GetStorageStats();
    var out := stopped.value.value;
    assert m.session_history == [out] && out.start_time == 1000 && out.duration == 5000;
    assert DurationSum([out]) == 5000 by { assert DurationSum([]) == 0; }
    assert [out][..0] == [];
    assert OldestStart([out]) == Some(1000);
  }

  /** A paused session is replaced by a new start: pausing does not count as recording. */
  method PausedSessionReplaced() returns (r: Result<string, SessionError>, current: Option<AudioRecordingSession>)
    ensures r == Ok("s2")
    ensures current.Some? && current.value.id == "s2" && current.value.state == Recording
  {
    var m := new SessionManager("/data", Microphone);
    var _ := m.StartRecordingSession("First", None, None, [], "s1", 1000, "2025/01/01", true);
    var _ := m.PauseRecordingSession();
    r := m.StartRecordingSession("Second", None, None, [], "s2", 2000, "2025/01/01", true);
    current := m.current_session;
  }
}
