/**
 * Session tracking commands: the current session transcript, speaker
 * analysis, session keywords, a session summary and the export of the
 * session transcript.  They report fixed sample data and never write the
 * context; the export command picks its format from the spoken text and
 * builds a file name from a fresh identifier and the clock.  No registry
 * function registers these commands.
 */
module SessionCommands {
  import opened Common
  import opened VoiceTypes

  datatype Kind =
    | ShowSessionTranscript | ShowSpeakerAnalysis | ShowSessionKeywords
    | GenerateSessionSummary | ExportSessionTranscript

  const All: seq<Kind> := [
    ShowSessionTranscript, ShowSpeakerAnalysis, ShowSessionKeywords,
    GenerateSessionSummary, ExportSessionTranscript]

  function Name(k: Kind): string
  {
    match k
    case ShowSessionTranscript => "show_session_transcript"
    case ShowSpeakerAnalysis => "show_speaker_analysis"
    case ShowSessionKeywords => "show_session_keywords"
    case GenerateSessionSummary => "generate_session_summary"
    case ExportSessionTranscript => "export_session_transcript"
  }

  function Category(k: Kind): CommandCategory { Transcription }

  function Patterns(k: Kind): seq<PatternType>
  {
    match k
    case ShowSessionTranscript =>
      Exacts(["show transcript", "show session transcript", "display transcript"])
        + [ContainsText("show transcript")]
    case ShowSpeakerAnalysis =>
      Exacts(["show speaker analysis", "analyze speakers", "speaker breakdown"])
        + [ContainsText("speaker analysis")]
    case ShowSessionKeywords =>
      Exacts(["show keywords", "session keywords", "key topics"]) + [ContainsText("keywords")]
    case GenerateSessionSummary =>
      Exacts(["generate summary", "session summary", "summarize session"]) + [ContainsText("summary")]
    case ExportSessionTranscript =>
      [Exact("export transcript"), ContainsText("export transcript"), ContainsText("export as"),
       ContainsText("save transcript")]
  }

  const TranscriptPreview: seq<string> := [
    "[00:00:15] Speaker_1: Welcome everyone to today's meeting",
    "[00:00:22] Speaker_2: Thank you for having us here",
    "[00:00:28] Speaker_1: Let's start with the project updates",
    "[00:00:35] Speaker_2: The development is progressing well",
    "[00:00:42] Speaker_1: What about the timeline?",
    "[00:00:48] Speaker_2: We're on track for the March deadline",
    "[00:00:55] Speaker_1: Excellent, any blockers?",
    "[00:01:02] Speaker_2: No major issues at this time"]

  const TranscriptHead: string := "\U{1F4DD} Current Session Transcript:\n"

  function TranscriptResult(): (r: CommandResult)
    ensures r.success && StartsWith(r.message, TranscriptHead)
    ensures r.data == Some(Object(map["phrase_count" := JNumber(8.0), "speaker_count" := JNumber(2.0),
                                      "question_count" := JNumber(2.0), "average_confidence" := JNumber(0.942)]))
  {
    var body := Join(TranscriptPreview, "\n") + "\n"
      + "\n"
      + "\U{1F4CA} Statistics:\n"
      + "\U{2022} Duration: 1:15\n"
      + "\U{2022} Phrases: 8\n"
      + "\U{2022} Speakers: 2\n"
      + "\U{2022} Questions: 2\n"
      + "\U{2022} Confidence: 94.2%";
    var message := TranscriptHead + body;
    StartsWithConcat(TranscriptHead, body);
    SuccessWithData(message, Object(map["phrase_count" := JNumber(8.0), "speaker_count" := JNumber(2.0),
                                        "question_count" := JNumber(2.0), "average_confidence" := JNumber(0.942)]))
  }

  /** One line of the speaker analysis, with the values the source formats already written out. */
  const SpeakerAnalysisText: string :=
    "1. Meeting Host (Speaker_1)\n"
    + "   Speaking Time: 0:45\n"
    + "   Phrases: 12 | Questions: 5\n"
    + "   Confidence: 95.0% | Rate: 145 WPM\n"
    + "   Topics: project, timeline, updates\n"
    + "2. Team Member (Speaker_2)\n"
    + "   Speaking Time: 0:30\n"
    + "   Phrases: 8 | Questions: 1\n"
    + "   Confidence: 92.0% | Rate: 160 WPM\n"
    + "   Topics: development, progress, deadline"

  const SpeakerHead: string := "\U{1F465} Speaker Analysis:\n"

  function SpeakerResult(): (r: CommandResult)
    ensures r.success && StartsWith(r.message, SpeakerHead)
    ensures r.data == Some(Object(map["speaker_count" := JNumber(2.0), "total_speaking_time" := JNumber(75.0),
                                      "most_active_speaker" := JString("Speaker_1")]))
  {
    var body := SpeakerAnalysisText + "\n"
      + "\U{1F4CA} Session Overview:\n"
      + "\U{2022} Total Speakers: 2\n"
      + "\U{2022} Most Active: Meeting Host\n"
      + "\U{2022} Total Speaking Time: 1:15";
    var message := SpeakerHead + body;
    StartsWithConcat(SpeakerHead, body);
    SuccessWithData(message, Object(map["speaker_count" := JNumber(2.0), "total_speaking_time" := JNumber(75.0),
                                        "most_active_speaker" := JString("Speaker_1")]))
  }

  datatype Keyword = Keyword(word: string, count: nat)

  const Keywords: seq<Keyword> := [
    Keyword("project", 15), Keyword("development", 12), Keyword("timeline", 8), Keyword("meeting", 7),
    Keyword("progress", 6), Keyword("deadline", 5), Keyword("updates", 4), Keyword("team", 4),
    Keyword("issues", 3), Keyword("blockers", 2)]

  /** The numbered keyword lines, `"{i}. {keyword} ({count})\n"` each, numbering from `first`. */
  function KeywordLines(ks: seq<Keyword>, first: nat): (r: string)
    ensures |ks| > 0 ==> StartsWith(r, NatToString(first) + ". " + ks[0].word + " (")
    decreases |ks|
  {
    if |ks| == 0 then ""
    else
      var line := NatToString(first) + ". " + ks[0].word + " (" + NatToString(ks[0].count) + ")\n";
      var r := line + KeywordLines(ks[1..], first + 1);
      assert r[..|NatToString(first) + ". " + ks[0].word + " ("|] == NatToString(first) + ". " + ks[0].word + " (";
      r
  }

  function KeywordsResult(): (r: CommandResult)
    ensures r.success
    ensures r.data == Some(Object(map["keyword_count" := JNumber(|Keywords| as real),
                                      "most_frequent" := JString(Keywords[0].word),
                                      "frequency" := JNumber(Keywords[0].count as real)]))
  {
    var message := "\U{1F511} Session Keywords:\n" + Trim(KeywordLines(Keywords, 1)) + "\n"
      + "\U{1F4CA} Analysis:\n"
      + "\U{2022} Total Unique Keywords: " + NatToString(|Keywords|) + "\n"
      + "\U{2022} Most Frequent: '" + Keywords[0].word + "' (" + NatToString(Keywords[0].count) + ")\n"
      + "\U{2022} Topic Focus: Project Management & Development";
    SuccessWithData(message, Object(map["keyword_count" := JNumber(|Keywords| as real),
                                        "most_frequent" := JString(Keywords[0].word),
                                        "frequency" := JNumber(Keywords[0].count as real)]))
  }

  /** The keyword list the command reports has ten entries, the most frequent one first. */
  lemma KeywordsRanked()
    ensures |Keywords| == 10
    ensures forall i :: 0 <= i < |Keywords| ==> Keywords[0].count >= Keywords[i].count
    ensures forall i, j :: 0 <= i < j < |Keywords| ==> Keywords[i].count >= Keywords[j].count
  {
  }

  const SummaryText: string :=
    "\U{1F4CB} Session Summary:\n"
    + "\n"
    + "\U{1F3AF} Meeting Purpose: Project status update and timeline review\n"
    + "\n"
    + "\U{1F465} Participants: 2 speakers identified\n"
    + "\U{2022} Meeting Host (60% speaking time)\n"
    + "\U{2022} Team Member (40% speaking time)\n"
    + "\n"
    + "\U{1F511} Key Points:\n"
    + "\U{2022} Development progress is on track\n"
    + "\U{2022} March deadline is achievable\n"
    + "\U{2022} No major blockers identified\n"
    + "\U{2022} Team coordination is effective\n"
    + "\n"
    + "\U{1F4CA} Session Metrics:\n"
    + "\U{2022} Duration: 1:15\n"
    + "\U{2022} Total Words: 156\n"
    + "\U{2022} Questions Asked: 6\n"
    + "\U{2022} Average Confidence: 93.5%\n"
    + "\n"
    + "\U{1F3AD} Sentiment Analysis:\n"
    + "\U{2022} Overall Tone: Positive (78%)\n"
    + "\U{2022} Confidence Level: High\n"
    + "\U{2022} Engagement: Active participation\n"
    + "\n"
    + "\U{1F4DD} Action Items:\n"
    + "\U{2022} Continue current development pace\n"
    + "\U{2022} Monitor for potential blockers\n"
    + "\U{2022} Schedule next update meeting"

  function SummaryResult(): (r: CommandResult)
    ensures r.success && r.message == SummaryText
    ensures r.data == Some(Object(map["summary_generated" := JBool(true), "word_count" := JNumber(156.0),
                                      "sentiment_score" := JNumber(0.78), "confidence_score" := JNumber(0.935)]))
  {
    SuccessWithData(SummaryText, Object(map["summary_generated" := JBool(true), "word_count" := JNumber(156.0),
                                            "sentiment_score" := JNumber(0.78), "confidence_score" := JNumber(0.935)]))
  }

  /** The export format: the first of json, csv, txt or text, srt that the text contains, TXT otherwise. */
  function ExportFormat(text: string): (f: string)
    ensures f == "JSON" <==> Contains(text, "json")
    ensures f == "CSV" <==> !Contains(text, "json") && Contains(text, "csv")
    ensures f == "SRT" <==> !Contains(text, "json") && !Contains(text, "csv")
                            && !Contains(text, "txt") && !Contains(text, "text") && Contains(text, "srt")
    ensures f == "TXT" || f == "JSON" || f == "CSV" || f == "SRT"
  {
    if Contains(text, "json") then "JSON"
    else if Contains(text, "csv") then "CSV"
    else if Contains(text, "txt") || Contains(text, "text") then "TXT"
    else if Contains(text, "srt") then "SRT"
    else "TXT"
  }

  /** `session_transcript_{uuid}_{stamp}.{format in lower case}`. */
  function ExportFileName(text: string, uuid: string, stamp: string): (name: string)
    ensures StartsWith(name, "session_transcript_" + uuid + "_" + stamp + ".")
    ensures EndsWith(name, "." + ToLower(ExportFormat(text)))
  {
    var head := "session_transcript_" + uuid + "_" + stamp;
    var ext := ToLower(ExportFormat(text));
    var name := head + "." + ext;
    StartsWithConcat(head + ".", ext);
    assert name == head + ("." + ext);
    EndsWithConcat(head, "." + ext);
    name
  }

  const ExportHead: string := "\U{1F4E4} Exporting session transcript...\n\U{1F4C1} "

  function ExportResult(text: string, uuid: string, stamp: string): (r: CommandResult)
    ensures r.success
    ensures StartsWith(r.message, ExportHead + "Format: " + ExportFormat(text) + "\n")
    ensures r.data == Some(Object(map["filename" := JString(ExportFileName(text, uuid, stamp)),
                                      "format" := JString(ExportFormat(text)),
                                      "phrase_count" := JNumber(8.0), "word_count" := JNumber(156.0)]))
  {
    var format := ExportFormat(text);
    var file := ExportFileName(text, uuid, stamp);
    var head := ExportHead + "Format: " + format + "\n";
    var body := "\U{1F4C4} Filename: " + file + "\n"
      + "\U{1F4CD} Location: ~/clipstty/exports/\n"
      + "\U{1F4CA} Content: 8 phrases, 2 speakers, 156 words\n"
      + "\U{2705} Export completed successfully";
    var message := head + body;
    StartsWithConcat(head, body);
    SuccessWithData(message, Object(map["filename" := JString(file), "format" := JString(format),
                                        "phrase_count" := JNumber(8.0), "word_count" := JNumber(156.0)]))
  }

  /** The result a session command reports, which depends on the spoken text only for the export. */
  function Report(k: Kind, text: string, env: Env): (r: CommandResult)
    ensures r.success && r.data.Some? && r.data.value.Object?
  {
    match k
    case ShowSessionTranscript => TranscriptResult()
    case ShowSpeakerAnalysis => SpeakerResult()
    case ShowSessionKeywords => KeywordsResult()
    case GenerateSessionSummary => SummaryResult()
    case ExportSessionTranscript => ExportResult(text, env.uuid, env.stamp)
  }

  /** Runs a session command: every one succeeds with a data payload and leaves the context as it was. */
  function Execute(k: Kind, params: CommandParams, ctx: SystemContext, env: Env): (o: Outcome)
    ensures o.ctx == ctx
    ensures o.result.Ok? && o.result.value.success && o.result.value.data.Some?

  {
    Done(Report(k, params.text, env), ctx)
  }

  /** The session transcript carries the heading the source's test looks for. */
  lemma TranscriptHeading(text: string, env: Env)
    ensures Contains(Report(ShowSessionTranscript, text, env).message, "Current Session Transcript")
  {
    assert TranscriptHead == "\U{1F4DD} " + "Current Session Transcript" + ":\n";
    OccursInMiddle("\U{1F4DD} ", "Current Session Transcript", ":\n");
    ContainsInHead(TranscriptResult().message, TranscriptHead, "Current Session Transcript", 2);
  }

  /** The speaker analysis carries the heading the source's test looks for. */
  lemma SpeakerHeading(text: string, env: Env)
    ensures Contains(Report(ShowSpeakerAnalysis, text, env).message, "Speaker Analysis")
  {
    assert OccursAt(SpeakerHead, "Speaker Analysis", 2);
    ContainsInHead(SpeakerResult().message, SpeakerHead, "Speaker Analysis", 2);
  }

  lemma JsonRequested(t: string)
    requires t == "export transcript as json"
    ensures ExportFormat(t) == "JSON"
  {
    assert OccursAt(t, "json", 21);
    ContainsWitness(t, "json", 21);
  }

  /** An export whose format is JSON says "Format: JSON" in its message. */
  lemma JsonMessage(text: string, env: Env)
    requires ExportFormat(text) == "JSON"
    ensures Contains(Report(ExportSessionTranscript, text, env).message, "Format: JSON")
  {
    var m := ExportResult(text, env.uuid, env.stamp).message;
    assert Report(ExportSessionTranscript, text, env).message == m;
    var head := ExportHead + "Format: " + ExportFormat(text) + "\n";
    assert StartsWith(m, head);
    assert head == ExportHead + "Format: JSON" + "\n";
    OccursInMiddle(ExportHead, "Format: JSON", "\n");
    ContainsInHead(m, head, "Format: JSON", |ExportHead|);
  }

  /** "export transcript as json" exports in JSON and says so; the file name ends in ".json". */
  lemma JsonExport(text: string, env: Env)
    requires text == "export transcript as json"
    ensures Contains(Report(ExportSessionTranscript, text, env).message, "Format: JSON")
    ensures EndsWith(ExportFileName(text, env.uuid, env.stamp), ".json")
  {
    JsonRequested(text);
    JsonMessage(text, env);
    LowerName("JSON", "json");
  }

  lemma LowerName(upper: string, lower: string)
    requires (upper == "JSON" && lower == "json") || (upper == "TXT" && lower == "txt")
    ensures ToLower(upper) == lower
  {
    assert forall i :: 0 <= i < |upper| ==> LowerChar(upper[i]) == lower[i];
  }

  /** Text naming no format exports as TXT, into a ".txt" file. */
  lemma DefaultFormat(text: string, uuid: string, stamp: string)
    requires !Contains(text, "json") && !Contains(text, "csv") && !Contains(text, "srt")
    ensures ExportFormat(text) == "TXT"
    ensures EndsWith(ExportFileName(text, uuid, stamp), ".txt")
  {
    LowerName("TXT", "txt");
  }

  lemma NamesDistinct()
    ensures |All| == 5
    ensures forall i, j :: 0 <= i < j < |All| ==> Name(All[i]) != Name(All[j])
  {
  }
}
