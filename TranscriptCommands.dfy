/**
 * Transcript management commands: search, recent list, export, duplicate
 * removal, statistics, backup, tagging, phrase search, accuracy trends,
 * merging, word frequency and export of one transcript as a text file.
 * Every handler here reads only the spoken text (and the clock, for file
 * names) and answers with canned data; none writes the context.
 */
module TranscriptCommands {
  import opened Common
  import opened VoiceTypes

  datatype Kind =
    | SearchTranscripts | ShowRecentTranscripts | ExportTranscripts | DeleteDuplicateTranscripts
    | ShowTranscriptionStatistics | CreateTranscriptBackup | TagTranscript | FindTranscriptsContaining
    | ShowAccuracyTrends | MergeSimilarTranscripts | ShowWordFrequency | ExportTranscriptAsText

  /** The commands of this file in the order `register_all_commands` registers them. */
  const Registered: seq<Kind> := [
    SearchTranscripts, ShowRecentTranscripts, ExportTranscripts, DeleteDuplicateTranscripts,
    ShowTranscriptionStatistics, CreateTranscriptBackup, TagTranscript, FindTranscriptsContaining,
    ShowAccuracyTrends, MergeSimilarTranscripts, ShowWordFrequency, ExportTranscriptAsText]

  function Name(k: Kind): string
  {
    match k
    case SearchTranscripts => "search_transcripts"
    case ShowRecentTranscripts => "show_recent_transcripts"
    case ExportTranscripts => "export_transcripts"
    case DeleteDuplicateTranscripts => "delete_duplicate_transcripts"
    case ShowTranscriptionStatistics => "show_transcription_statistics"
    case CreateTranscriptBackup => "create_transcript_backup"
    case TagTranscript => "tag_transcript"
    case FindTranscriptsContaining => "find_transcripts_containing"
    case ShowAccuracyTrends => "show_accuracy_trends"
    case MergeSimilarTranscripts => "merge_similar_transcripts"
    case ShowWordFrequency => "show_word_frequency"
    case ExportTranscriptAsText => "export_transcript_as_text"
  }

  function Category(k: Kind): CommandCategory { System }

  function Patterns(k: Kind): seq<PatternType>
  {
    match k
    case SearchTranscripts =>
      [Exact("search transcripts"), ContainsText("search transcripts"), Fuzzy("find transcripts", 0.8)]
    case ShowRecentTranscripts =>
      [Exact("show recent transcripts"), Exact("recent transcripts"), ContainsText("show recent")]
    case ExportTranscripts =>
      [Exact("export transcripts"), ContainsText("export transcripts"), Fuzzy("save transcripts", 0.8)]
    case DeleteDuplicateTranscripts =>
      [Exact("delete duplicate transcripts"), Exact("remove duplicates"), ContainsText("delete duplicates")]
    case ShowTranscriptionStatistics =>
      [Exact("show transcription statistics"), Exact("transcription stats"), ContainsText("transcription statistics")]
    case CreateTranscriptBackup =>
      [Exact("create transcript backup"), Exact("backup transcripts"), ContainsText("backup transcripts")]
    case TagTranscript =>
      [ContainsText("tag last transcript"), ContainsText("tag transcript"), Fuzzy("add tag", 0.8)]
    case FindTranscriptsContaining =>
      [ContainsText("find transcripts containing"), ContainsText("search for"), Fuzzy("transcripts with", 0.8)]
    case ShowAccuracyTrends =>
      [Exact("show transcription accuracy trends"), Exact("accuracy trends"), ContainsText("show accuracy")]
    case MergeSimilarTranscripts =>
      [Exact("merge similar transcripts"), Exact("consolidate transcripts"), ContainsText("merge transcripts")]
    case ShowWordFrequency =>
      [Exact("show word frequency analysis"), Exact("word frequency"), ContainsText("word analysis")]
    case ExportTranscriptAsText =>
      [ContainsText("export transcript as text"), ContainsText("save transcript as"), Fuzzy("export as text", 0.8)]
  }

  // ---------------------------------------------------------------------
  // Searching
  // ---------------------------------------------------------------------

  /** The query of a search: what follows "search transcripts", trimmed, or "recent transcripts". */
  function SearchQuery(text: string): (q: string)
    ensures StartsWith(text, "search transcripts") ==> q == Trim(text[18..])
    ensures !StartsWith(text, "search transcripts") ==> q == "recent transcripts"
  {
    if StartsWith(text, "search transcripts") then Trim(text[|"search transcripts"|..]) else "recent transcripts"
  }

  const RecentList: seq<string> := [
    "Meeting Notes - 2025-01-16 14:30 (95% confidence)",
    "Interview Recording - 2025-01-15 10:15 (87% confidence)",
    "Lecture Notes - 2025-01-14 16:45 (92% confidence)"]

  /** The canned result lines for a query: the recent list, or three lines headed by the query. */
  function SearchResults(query: string): (lines: seq<string>)
    ensures |lines| == 3
    ensures query == "" || query == "recent transcripts" ==> lines == RecentList
    ensures !(query == "" || query == "recent transcripts") ==>
      lines[0] == "Found 3 transcripts matching '" + query + "':"
  {
    if query == "" || query == "recent transcripts" then RecentList
    else
      var head := "Found 3 transcripts matching '" + query + "':";
      [head,
       "Project Discussion - 2025-01-16 (89% confidence)",
       "Team Meeting - 2025-01-15 (94% confidence)"]
  }

  function SearchOutcome(text: string): (r: CommandResult)
    ensures r.success
    ensures var body := Join(SearchResults(SearchQuery(text)), "\n");
      r.message == "\U{1F50D} Transcript Search Results:\n" + body && r.data == Some(Text(body))
  {
    var body := Join(SearchResults(SearchQuery(text)), "\n");
    SuccessWithData("\U{1F50D} Transcript Search Results:\n" + body, Text(body))
  }

  /** A search that says nothing after "search transcripts" lists the recent transcripts. */
  lemma BareSearchListsRecent(text: string)
    requires StartsWith(text, "search transcripts") && AllSpace(text[18..])
    ensures SearchResults(SearchQuery(text)) == RecentList
  {
    TrimEmptyIffAllSpace(text[18..]);
  }

  // ---------------------------------------------------------------------
  // Exporting
  // ---------------------------------------------------------------------

  /** The first of today / week / month mentioned, or everything. */
  function ExportCriteria(text: string): (c: string)
    ensures Contains(text, "today") ==> c == "today's transcripts"
    ensures !Contains(text, "today") && Contains(text, "week") ==> c == "this week's transcripts"
    ensures !Contains(text, "today") && !Contains(text, "week") && Contains(text, "month") ==>
              c == "this month's transcripts"
    ensures !Contains(text, "today") && !Contains(text, "week") && !Contains(text, "month") ==>
              c == "all transcripts"
  {
    if Contains(text, "today") then "today's transcripts"
    else if Contains(text, "week") then "this week's transcripts"
    else if Contains(text, "month") then "this month's transcripts"
    else "all transcripts"
  }

  function ExportOutcome(text: string, stamp: string): (r: CommandResult)
    ensures r.success
    ensures var file := "transcripts_export_" + stamp + ".txt";
      r.message == "\U{1F4E4} Exported " + ExportCriteria(text) + " to " + file && r.data == Some(Text("exported:" + file))
  {
    var file := "transcripts_export_" + stamp + ".txt";
    SuccessWithData("\U{1F4E4} Exported " + ExportCriteria(text) + " to " + file, Text("exported:" + file))
  }

  // ---------------------------------------------------------------------
  // Tagging
  // ---------------------------------------------------------------------

  /**
   * The tag as the source computes it: the trimmed piece after the last
   * occurrence of the letters "as", wherever they occur, or "general".
   * No such tag can itself contain "as".
   */
  function TagAsWritten(text: string): (tag: string)
    ensures Contains(text, "as") ==> tag == Trim(SplitOn(text, "as")[|SplitOn(text, "as")| - 1])
    ensures !Contains(text, "as") ==> tag == "general"
    ensures !Contains(tag, "as")
  {
    if Contains(text, "as") then
      var parts := SplitOn(text, "as");
      SplitPiecesFree(text, "as");
      var tag := Trim(parts[|parts| - 1]);
      assert !Contains(tag, "as") by {
        if Contains(tag, "as") { ContainsTrans(parts[|parts| - 1], tag, "as"); }
      }
      tag
    else
      assert !Contains("general", "as") by {
        var g := "general";
        Mismatch(g, "as", 0, 0); Mismatch(g, "as", 1, 0); Mismatch(g, "as", 2, 0);
        Mismatch(g, "as", 3, 0); Mismatch(g, "as", 4, 0); Mismatch(g, "as", 5, 1);
      }
      "general"
  }

  /** The evidently intended tag: the trimmed text after the last word "as". */
  function Tag(text: string): (tag: string)
    ensures Contains(text, " as ") ==> tag == Trim(SplitOn(text, " as ")[|SplitOn(text, " as ")| - 1])
    ensures !Contains(text, " as ") ==> tag == "general"
  {
    if Contains(text, " as ") then
      var parts := SplitOn(text, " as ");
      Trim(parts[|parts| - 1])
    else "general"
  }

  lemma TagLead(s: string)
    requires s == "tag transcript as "
    ensures forall j :: 0 <= j < 14 ==> !OccursAt(s, " as ", j)
  {
    forall j | 0 <= j < 14 ensures !OccursAt(s, " as ", j) {
      if j == 0 { Mismatch(s, " as ", 0, 0); }
      else if j == 1 { Mismatch(s, " as ", 1, 0); }
      else if j == 2 { Mismatch(s, " as ", 2, 0); }
      else if j == 3 { Mismatch(s, " as ", 3, 1); }
      else if j == 4 { Mismatch(s, " as ", 4, 0); }
      else if j == 5 { Mismatch(s, " as ", 5, 0); }
      else if j == 6 { Mismatch(s, " as ", 6, 0); }
      else if j == 7 { Mismatch(s, " as ", 7, 0); }
      else if j == 8 { Mismatch(s, " as ", 8, 0); }
      else if j == 9 { Mismatch(s, " as ", 9, 0); }
      else if j == 10 { Mismatch(s, " as ", 10, 0); }
      else if j == 11 { Mismatch(s, " as ", 11, 0); }
      else if j == 12 { Mismatch(s, " as ", 12, 0); }
      else { Mismatch(s, " as ", 13, 0); }
    }
  }

  /** "tag transcript as W" tags with the word W, whatever letters W is made of. */
  lemma TagOfWord(w: string)
    requires IsWord(w)
    ensures Tag("tag transcript as " + w) == w
  {
    var lead := "tag transcript";
    TagLead(lead + " as ");
    SplitAfterLead(lead, " as ", w);
    WordAvoidsSpaced(w, " as ", 0);
    SplitAbsent(w, " as ");
    var t := lead + " as " + w;
    assert t == "tag transcript as " + w;
    assert OccursAt(t, " as ", 14);
    ContainsWitness(t, " as ", 14);
    TrimWord(w);
  }

  /** As written, "tag transcript as class" cannot tag "class": the tag never contains the letters "as". */
  lemma TagClassMissed(t: string)
    requires t == "tag transcript as class"
    ensures TagAsWritten(t) != "class"
  {
    var w := "class";
    assert OccursAt(w, "as", 2);
    ContainsWitness(w, "as", 2);
  }

  /** The intended reading tags "tag transcript as class" with "class". */
  lemma TagClass(t: string)
    requires t == "tag transcript as class"
    ensures Tag(t) == "class"
  {
    var w := "class";
    forall i | 0 <= i < 5 ensures !IsSpace(w[i]) {
      if i == 0 { } else if i == 1 { } else if i == 2 { } else if i == 3 { } else { }
    }
    TagOfWord(w);
    assert t == "tag transcript as " + w;
  }

  /** "tag transcript as class" should tag "class"; as written it cannot. */
  lemma TagClassAsWritten(t: string)
    requires t == "tag transcript as class"
    ensures TagAsWritten(t) != "class"
    ensures Tag(t) == "class"
  {
    TagClassMissed(t);
    TagClass(t);
  }

  /** The tagging command as written: it reports the tag `TagAsWritten` finds. */
  function TagOutcome(text: string): (r: CommandResult)
    ensures r.success && r.data == Some(Text("tagged:" + TagAsWritten(text)))
    ensures r.message == "\U{1F3F7}\U{FE0F}  Tagged last transcript as '" + TagAsWritten(text) + "'"
  {
    var tag := TagAsWritten(text);
    SuccessWithData("\U{1F3F7}\U{FE0F}  Tagged last transcript as '" + tag + "'", Text("tagged:" + tag))
  }

  // ---------------------------------------------------------------------
  // Searching for a phrase
  // ---------------------------------------------------------------------

  /** The trimmed text after the last "containing", or "unknown phrase". */
  function Phrase(text: string): (p: string)
    ensures Contains(text, "containing") ==>
      p == Trim(SplitOn(text, "containing")[|SplitOn(text, "containing")| - 1]) && !Contains(p, "containing")
    ensures !Contains(text, "containing") ==> p == "unknown phrase"
  {
    if Contains(text, "containing") then
      var parts := SplitOn(text, "containing");
      LastPieceFree(text, "containing");
      Trim(parts[|parts| - 1])
    else "unknown phrase"
  }

  function PhraseResults(phrase: string): (lines: seq<string>)
    ensures phrase == "" || phrase == "unknown phrase" <==> lines == ["No search phrase specified"]
    ensures lines != ["No search phrase specified"] ==>
      |lines| == 5 && lines[0] == "Found 4 transcripts containing '" + phrase + "':"
  {
    if phrase == "" || phrase == "unknown phrase" then ["No search phrase specified"]
    else
      ["Found 4 transcripts containing '" + phrase + "':",
       "\U{2022} Meeting Notes - 2025-01-16 (3 occurrences)",
       "\U{2022} Project Discussion - 2025-01-15 (1 occurrence)",
       "\U{2022} Team Standup - 2025-01-14 (2 occurrences)",
       "\U{2022} Client Call - 2025-01-13 (1 occurrence)"]
  }

  function PhraseOutcome(text: string): (r: CommandResult)
    ensures r.success && r.data == Some(Text("search_phrase:" + Phrase(text)))
    ensures r.message == "\U{1F50D} " + Join(PhraseResults(Phrase(text)), "\n")
  {
    var phrase := Phrase(text);
    SuccessWithData("\U{1F50D} " + Join(PhraseResults(phrase), "\n"), Text("search_phrase:" + phrase))
  }

  lemma PhraseLead(s: string)
    requires s == "find transcripts containing"
    ensures forall j :: 0 <= j < 17 ==> !OccursAt(s, "containing", j)
  {
    forall j | 0 <= j < 17 ensures !OccursAt(s, "containing", j) {
      if j == 0 { Mismatch(s, "containing", 0, 0); }
      else if j == 1 { Mismatch(s, "containing", 1, 0); }
      else if j == 2 { Mismatch(s, "containing", 2, 0); }
      else if j == 3 { Mismatch(s, "containing", 3, 0); }
      else if j == 4 { Mismatch(s, "containing", 4, 0); }
      else if j == 5 { Mismatch(s, "containing", 5, 0); }
      else if j == 6 { Mismatch(s, "containing", 6, 0); }
      else if j == 7 { Mismatch(s, "containing", 7, 0); }
      else if j == 8 { Mismatch(s, "containing", 8, 0); }
      else if j == 9 { Mismatch(s, "containing", 9, 0); }
      else if j == 10 { Mismatch(s, "containing", 10, 1); }
      else if j == 11 { Mismatch(s, "containing", 11, 0); }
      else if j == 12 { Mismatch(s, "containing", 12, 0); }
      else if j == 13 { Mismatch(s, "containing", 13, 0); }
      else if j == 14 { Mismatch(s, "containing", 14, 0); }
      else if j == 15 { Mismatch(s, "containing", 15, 0); }
      else { Mismatch(s, "containing", 16, 0); }
    }
  }

  /** "find transcripts containing W" searches for the word W. */
  lemma PhraseOfWord(w: string)
    requires IsWord(w) && !Contains(" " + w, "containing")
    ensures Phrase("find transcripts containing " + w) == w
  {
    var lead := "find transcripts ";
    var rest := " " + w;
    PhraseLead(lead + "containing");
    SplitAfterLead(lead, "containing", rest);
    SplitAbsent(rest, "containing");
    var t := lead + "containing" + rest;
    assert t == "find transcripts containing " + w;
    assert SplitOn(t, "containing") == [lead, rest];
    assert OccursAt(t, "containing", 17);
    ContainsWitness(t, "containing", 17);
    TrimSpacedWord(w);
  }


  // ---------------------------------------------------------------------
  // Export of one transcript as a text file
  // ---------------------------------------------------------------------

  /** Adds ".txt" unless the name already ends with it. */
  function WithTxt(name: string): (r: string)
    ensures EndsWith(r, ".txt")
    ensures EndsWith(name, ".txt") ==> r == name
    ensures !EndsWith(name, ".txt") ==> r == name + ".txt"
  {
    if EndsWith(name, ".txt") then name
    else
      var r := name + ".txt";
      assert r[|r| - 4..] == ".txt";
      r
  }

  /** The piece between the first and the second occurrence of the letters "as", trimmed. */
  function StemAsWritten(text: string): (stem: string)
    requires Contains(text, "as")
    ensures !Contains(stem, "as")
  {
    var parts := SplitOn(text, "as");
    SplitPiecesFree(text, "as");
    var stem := Trim(parts[1]);
    assert !Contains(stem, "as") by {
      if Contains(stem, "as") { ContainsTrans(parts[1], stem, "as"); }
    }
    stem
  }

  /** The file name as the source computes it. */
  function FileNameAsWritten(text: string, stamp: string): (r: string)
    ensures Contains(text, "as") ==> r == WithTxt(StemAsWritten(text))
    ensures !Contains(text, "as") ==> r == "transcript_" + stamp + ".txt"
  {
    if Contains(text, "as") then WithTxt(StemAsWritten(text)) else "transcript_" + stamp + ".txt"
  }

  /** The evidently intended file name: the trimmed text after the first word "as", with ".txt" ensured. */
  function FileName(text: string, stamp: string): (r: string)
    ensures EndsWith(r, ".txt")
    ensures Contains(text, " as ") ==> r == WithTxt(Trim(SplitOn(text, " as ")[1]))
    ensures !Contains(text, " as ") ==> r == "transcript_" + stamp + ".txt"
  {
    if Contains(text, " as ") then WithTxt(Trim(SplitOn(text, " as ")[1]))
    else
      var r := "transcript_" + stamp + ".txt";
      assert r[|r| - 4..] == ".txt";
      r
  }

  lemma FileNameLead(s: string)
    requires s == "save transcript as "
    ensures forall j :: 0 <= j < 15 ==> !OccursAt(s, " as ", j)
  {
    forall j | 0 <= j < 15 ensures !OccursAt(s, " as ", j) {
      if j == 0 { Mismatch(s, " as ", 0, 0); }
      else if j == 1 { Mismatch(s, " as ", 1, 0); }
      else if j == 2 { Mismatch(s, " as ", 2, 0); }
      else if j == 3 { Mismatch(s, " as ", 3, 0); }
      else if j == 4 { Mismatch(s, " as ", 4, 1); }
      else if j == 5 { Mismatch(s, " as ", 5, 0); }
      else if j == 6 { Mismatch(s, " as ", 6, 0); }
      else if j == 7 { Mismatch(s, " as ", 7, 0); }
      else if j == 8 { Mismatch(s, " as ", 8, 0); }
      else if j == 9 { Mismatch(s, " as ", 9, 0); }
      else if j == 10 { Mismatch(s, " as ", 10, 0); }
      else if j == 11 { Mismatch(s, " as ", 11, 0); }
      else if j == 12 { Mismatch(s, " as ", 12, 0); }
      else if j == 13 { Mismatch(s, " as ", 13, 0); }
      else { Mismatch(s, " as ", 14, 0); }
    }
  }

  /** "save transcript as W" exports to W, with ".txt" added when it is missing. */
  lemma FileNameOfWord(w: string, stamp: string)
    requires IsWord(w)
    ensures FileName("save transcript as " + w, stamp) == WithTxt(w)
  {
    var lead := "save transcript";
    FileNameLead(lead + " as ");
    SplitAfterLead(lead, " as ", w);
    WordAvoidsSpaced(w, " as ", 0);
    SplitAbsent(w, " as ");
    var t := lead + " as " + w;
    assert t == "save transcript as " + w;
    assert OccursAt(t, " as ", 15);
    ContainsWitness(t, " as ", 15);
    TrimWord(w);
  }

  /** As written, "save transcript as database" cannot export to "database.txt". */
  lemma FileNameDatabaseMissed(t: string, stamp: string)
    requires t == "save transcript as database"
    ensures FileNameAsWritten(t, stamp) != "database.txt"
  {
    assert OccursAt(t, "as", 16);
    ContainsWitness(t, "as", 16);
    var stem := StemAsWritten(t);
    var name := FileNameAsWritten(t, stamp);
    assert name == stem || name == stem + ".txt";
    assert OccursAt("database", "as", 5);
    ContainsWitness("database", "as", 5);
    assert OccursAt("database.txt", "as", 5);
    ContainsWitness("database.txt", "as", 5);
    assert (stem + ".txt")[..|stem|] == stem;
    assert "database.txt"[..8] == "database";
  }

  lemma DatabaseIsWord(w: string)
    requires w == "database"
    ensures IsWord(w)
  {
    forall i | 0 <= i < 8 ensures !IsSpace(w[i]) {
      if i == 0 { } else if i == 1 { } else if i == 2 { } else if i == 3 { }
      else if i == 4 { } else if i == 5 { } else if i == 6 { } else { }
    }
  }

  /** The intended reading exports "save transcript as database" to "database.txt". */
  lemma FileNameDatabaseFixed(w: string, stamp: string)
    requires w == "database"
    ensures FileName("save transcript as " + w, stamp) == "database.txt"
  {
    DatabaseIsWord(w);
    FileNameOfWord(w, stamp);
    DatabaseTxt(w);
  }

  lemma DatabaseTxt(w: string)
    requires w == "database"
    ensures WithTxt(w) == "database.txt"
  {
    assert !EndsWith(w, ".txt") by { assert w[4] == 'b'; }
  }

  /** "save transcript as database" should export "database.txt"; as written it cannot. */
  lemma FileNameDatabase(w: string, stamp: string)
    requires w == "database"
    ensures FileNameAsWritten("save transcript as " + w, stamp) != "database.txt"
    ensures FileName("save transcript as " + w, stamp) == "database.txt"
  {
    FileNameDatabaseMissed("save transcript as " + w, stamp);
    FileNameDatabaseFixed(w, stamp);
  }

  /** The text export as written: it reports the file name `FileNameAsWritten` finds. */
  function FileNameOutcome(text: string, stamp: string): (r: CommandResult)
    ensures r.success && r.data == Some(Text("exported_text:" + FileNameAsWritten(text, stamp)))
    ensures r.message == "\U{1F4C4} Exported last transcript as " + FileNameAsWritten(text, stamp)
  {
    var file := FileNameAsWritten(text, stamp);
    SuccessWithData("\U{1F4C4} Exported last transcript as " + file, Text("exported_text:" + file))
  }

  // ---------------------------------------------------------------------
  // Canned reports
  // ---------------------------------------------------------------------

  const RecentTranscriptsText: string := Join([
    "\U{1F4DD} Recent Transcriptions:",
    "\U{2022} Meeting Notes - 2025-01-16 14:30 (127 words, 95% confidence)",
    "\U{2022} Interview Recording - 2025-01-15 10:15 (543 words, 87% confidence)",
    "\U{2022} Lecture Notes - 2025-01-14 16:45 (892 words, 92% confidence)",
    "\U{2022} Team Standup - 2025-01-14 09:00 (234 words, 89% confidence)",
    "\U{2022} Client Call - 2025-01-13 15:30 (456 words, 91% confidence)"], "\n")

  const StatisticsText: string :=
    "\U{1F4CA} Transcription Statistics:\n"
    + "Total Transcripts: 1,247\n"
    + "Total Words: 89,432\n"
    + "Average Confidence: 91.3%\n"
    + "Storage Used: 45.7 MB\n"
    + "Most Active Day: Monday\n"
    + "Peak Hour: 2:00 PM\n"
    + "Top Words: meeting (234), project (187), team (156)\n"
    + "Accuracy Trend: \U{2197}\U{FE0F} Improving (+2.1% this week)"

  const TrendsText: string :=
    "\U{1F4C8} Transcription Accuracy Trends:\n"
    + "This Week: 91.3% (\U{2197}\U{FE0F} +2.1%)\n"
    + "Last Week: 89.2%\n"
    + "This Month: 90.7% (\U{2197}\U{FE0F} +1.8%)\n"
    + "Last Month: 88.9%\n"
    + "\n"
    + "\U{1F4CA} Model Performance:\n"
    + "\U{2022} whisper-base: 89.4% avg\n"
    + "\U{2022} whisper-small: 92.1% avg\n"
    + "\U{2022} whisper-medium: 94.3% avg\n"
    + "\n"
    + "\U{1F3AF} Quality Insights:\n"
    + "\U{2022} Best performance: 2-4 PM (93.2%)\n"
    + "\U{2022} Lowest noise sessions: 95.1% avg\n"
    + "\U{2022} Recommendation: Use medium model for important recordings"

  const WordFrequencyText: string :=
    "\U{1F4CA} Word Frequency Analysis:\n"
    + "\n"
    + "\U{1F51D} Top 10 Words:\n"
    + "1. meeting (234 occurrences)\n"
    + "2. project (187 occurrences)\n"
    + "3. team (156 occurrences)\n"
    + "4. discussion (143 occurrences)\n"
    + "5. deadline (128 occurrences)\n"
    + "6. client (119 occurrences)\n"
    + "7. requirements (98 occurrences)\n"
    + "8. schedule (87 occurrences)\n"
    + "9. budget (76 occurrences)\n"
    + "10. review (65 occurrences)\n"
    + "\n"
    + "\U{1F4C8} Trending Words (This Week):\n"
    + "\U{2022} \"launch\" (+45% usage)\n"
    + "\U{2022} \"testing\" (+32% usage)\n"
    + "\U{2022} \"deployment\" (+28% usage)\n"
    + "\n"
    + "\U{1F4A1} Insights:\n"
    + "\U{2022} Work-related terms dominate (78%)\n"
    + "\U{2022} Average words per transcript: 71.7\n"
    + "\U{2022} Vocabulary diversity: High (2,847 unique words)"

  /** Runs a transcript command: it always succeeds and never writes the context. */
  function Execute(k: Kind, params: CommandParams, ctx: SystemContext, env: Env): (o: Outcome)
    ensures o.ctx == ctx
    ensures o.result.Ok? && o.result.value.success && o.result.value.data.Some?
  {
    var text := params.text;
    var r := match k
      case SearchTranscripts => SearchOutcome(text)
      case ShowRecentTranscripts => SuccessWithData(RecentTranscriptsText, Text("recent_transcripts_displayed"))
      case ExportTranscripts => ExportOutcome(text, env.stamp)
      case DeleteDuplicateTranscripts =>
        SuccessWithData("\U{1F5D1}\U{FE0F}  Deleted 7 duplicate transcripts, freed 2.3 MB storage space",
                        Text("duplicates_deleted:7"))
      case ShowTranscriptionStatistics => SuccessWithData(StatisticsText, Text("transcription_stats"))
      case CreateTranscriptBackup =>
        var file := "transcript_backup_" + env.stamp + ".json";
        SuccessWithData("\U{1F4BE} Created transcript backup: " + file + " (1,247 transcripts, 45.7 MB)",
                        Text("backup_created:" + file))
      case TagTranscript => TagOutcome(text)
      case FindTranscriptsContaining => PhraseOutcome(text)
      case ShowAccuracyTrends => SuccessWithData(TrendsText, Text("accuracy_trends"))
      case MergeSimilarTranscripts =>
        SuccessWithData("\U{1F517} Merged 12 similar transcripts into 4 consolidated entries, saved 8.3 MB",
                        Text("merged:12:4"))
      case ShowWordFrequency => SuccessWithData(WordFrequencyText, Text("word_frequency_analysis"))
      case ExportTranscriptAsText => FileNameOutcome(text, env.stamp);
    Done(r, ctx)
  }

  lemma NamesDistinct()
    ensures |Registered| == 12
    ensures forall i, j :: 0 <= i < j < |Registered| ==> Name(Registered[i]) != Name(Registered[j])
  {
  }
}
