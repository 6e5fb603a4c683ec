# clipstty voice-command core in Dafny

clipstty is a speech-to-text clipboard tool driven by spoken commands. This project
models its voice-command engine and the services around it as Dafny code, and proves
what the program promises about them. There is one module per source file.

**Voice-command engine**
- `VoiceTypes`, `Regexes` and `Common` hold the shared data. That is the
  `SystemContext` the commands read and write, command results and errors, the
  command patterns, and a structured model of the regular expressions that the
  handlers use for matching and for captures.
- `VoiceEngine` is the engine (`voice_commands.rs`). It has:
  - a registry of commands by name;
  - a flat list of patterns tried in order (exact, contains, fuzzy, regex);
  - a normalised Levenshtein similarity;
  - a dispatcher that counts outcomes and keeps a bounded history;
  - suggestion scoring.
  The class `VoiceCommandEngine` holds the state. Its methods are proved to compute
  the specification functions `ParseOf`, `ExecuteOf` and `SuggestionsOf`.
- These modules hold one concrete command each, with its patterns and its handler:
  - `BasicCommands`, `AudioCommands`, `SttCommands`, `SystemCommands`;
  - `TranscriptCommands`, `SessionCommands`, `RecordingCommands`;
  - `RegistryCommands`.
- `Catalog` closes the command set into one datatype.
- `Registration` builds the comprehensive engine.
- `ContextManager` is the command context manager. It keeps:
  - a bounded history;
  - frequency, time and transition learning;
  - disambiguation rules;
  - condition checks;
  - next-command suggestions and completions.
- `SuggestionEngine` covers ranking and the two-per-category diversity filter.
- `TestingFramework` covers test cases, suites and the tally of a run.

**Transcript pipeline**
- `TranscriptTypes` holds the data types the pipeline shares.
- `Deduplication` covers normalisation, the content hash, the similarity measures,
  merging and the deduplicator.
- `TranscriptSearch` is the inverted index with its metadata indexes and search.
- `TranscriptionAnalytics` covers word frequencies, daily statistics, accuracy
  trends, patterns and the report.
- `TranscriptionLog` is the log service with its bounded recent cache.
- `TranscriptStorage` is the file store's index bookkeeping over a map of files.
- `SessionTracker` is the session transcript tracker. It classifies phrases, extracts
  keywords, attributes speakers, and keeps profiles and statistics.

**Audio bookkeeping**
- `AudioStorage` covers the session index, listing, statistics and retention cleanup.
- `AudioArchive` covers the archive service, the recording session manager and the
  compressor statistics.
- `AudioSessionManager` covers the Recording/Paused/Idle machine, the sample buffer,
  the transcript segments and the file name sanitiser.
- `Vad` covers the energy gate with its hangover, and push-to-talk and toggle.
- `AudioMenu` covers menu navigation.

**Values and services**
- `CoreTypes` covers the Hotkey print and parse round trip, clipboard items and the
  confidence predicates.
- `AppConfig` covers configuration defaults and validation.
- `SttService` covers model selection and backend dispatch.
- `TestRecorder` models the `test_recorder` binary:
  - its control-command parser;
  - the recording state machine;
  - the bounded detection buffer;
  - the edit distance;
  - padding;
  - phrase detection.

**How it is modelled**
- Imperative parts of the source are classes that have a `Valid()` invariant.
- Their methods state the whole new state, tied to specification functions.
- The command handlers write through `&mut SystemContext` in the source. Here they
  are functions that return the new context.
- Clocks, fresh identifiers and hash-map iteration orders are parameters.

## Model

| member | source | states |
|---|---|---|
| AppConfig.NewConfig | src/core/config.rs:237-247 | the default configuration has sample rate 16000, model "base", clipboard capacity 500 and no language |
| AppConfig.Validate | src/core/config.rs:273-304 | validation succeeds exactly when the model is supported, the language is empty or supported and the capacity is within the maximum; otherwise the first failing check names the bad model or language |
| AppConfig.NewConfigValid | src/core/config.rs:510-514 | the default configuration validates |
| AppConfig.InvalidModelRejected | src/core/config.rs:273-281 | changing only the model to an unsupported one makes any configuration fail validation |
| AppConfig.ValidationScenario | src/core/config.rs:510-526 | from the defaults, the model "invalid" fails and, with the model restored, the language "invalid" fails |
| AppConfig.DerivedConfigRejected | src/core/config.rs:72-102 | the derived `Default` leaves the model empty, so validation rejects it with "Unsupported STT model: " |
| AudioArchive.DefaultArchiveConfig | src/services/audio_archive.rs:609-620 | the default archive configuration: recording on, ./audio_archive, 10 GB, 30 days, medium compression, auto-delete privacy |
| AudioArchive.DefaultSearchCriteria | src/services/audio_archive.rs:624-633 | the default search has no bound and a limit of 50 |
| AudioArchive.JoinPath | src/services/audio_archive.rs:345 | the joined path starts with the base and ends with the component |
| AudioArchive.Ratio | src/services/audio_archive.rs:567-568 | a ratio of byte counts times its denominator gives the numerator, and lies in [0, 1] when the numerator is the smaller |
| AudioArchive.MockSize | src/services/audio_archive.rs:600-604 | the mock output is the input scaled by the format's ratio and truncated, but never less than one byte |
| AudioArchive.EncodedSizeBounds | src/services/audio_archive.rs:549-604 | WAV output is four bytes per sample; the mock formats yield at least one byte and at most four per sample for a non-empty input |
| AudioArchive.MockEncodersExpandEmptyInput | src/services/audio_archive.rs:600-604 | an empty input still costs a mock encoder one byte, more than its input |
| AudioArchive.Recorded | src/services/audio_archive.rs:560-568 | one more file is counted, with its original and compressed sizes added and the average ratio recomputed |
| AudioArchive.RecordedNeverExpands | src/services/audio_archive.rs:549-568 | compressing a non-empty input never makes the totals expand |
| AudioArchive.RecordedWavRatio | src/services/audio_archive.rs:555-568 | with WAV every file is as large as its input, so the average ratio is exactly 1 |
| AudioArchive.AudioCompressor.constructor | src/services/audio_archive.rs:536-547 | a compressor at the given level and format with zero statistics |
| AudioArchive.AudioCompressor.CompressAudio | src/services/audio_archive.rs:549-571 | the output is the format's encoding and the statistics count the file at four bytes per input sample |
| AudioArchive.RecordingSessionManager.constructor | src/services/audio_archive.rs:503-509 | a manager with no sessions and no history |
| AudioArchive.RecordingSessionManager.AddSession | src/services/audio_archive.rs:511-516 | the session is stored under its id and the id appended to the history |
| AudioArchive.RecordingSessionManager.UpdateSession | src/services/audio_archive.rs:518-521 | the stored session is replaced and the history untouched |
| AudioArchive.RecordingSessionManager.RemoveSession | src/services/audio_archive.rs:523-527 | the session and every occurrence of its id in the history are removed |
| AudioArchive.RecordingSessionManager.GetSession | src/services/audio_archive.rs:529-531 | the stored session exactly when its id is known |
| AudioArchive.AddedOnce | src/services/audio_archive.rs:511-516 | adding counts the id once more in the history and leaves the others |
| AudioArchive.RemovedEverywhere | src/services/audio_archive.rs:523-527 | removing drops every occurrence of the id and keeps every other id as often as before |
| AudioArchive.AddThenRemove | src/services/audio_archive.rs:511-527 | adding then removing a session whose id was absent restores the history |
| AudioArchive.NewRecording | src/services/audio_archive.rs:338-351 | a new session is empty, untagged and stored at <storage>/<id>.wav |
| AudioArchive.Stopped | src/services/audio_archive.rs:376-381 | a stopped session is ended, timed and sized at four bytes per sample, otherwise unchanged |
| AudioArchive.ServiceManagerConfig | src/services/audio_archive.rs:312-316 | the service's session manager allows five sessions, auto-saves and times out after an hour |
| AudioArchive.ListCriteria | src/services/audio_archive.rs:433-443 | listing passes on the given criteria, otherwise the defaults with limit 50 |
| AudioArchive.CleanupPolicy | src/services/audio_archive.rs:474-479 | cleanup passes on the configured age and size limits and keeps ten recent sessions |
| AudioArchive.AudioArchiveService.constructor | src/services/audio_archive.rs:297-326 | a service with a FLAC compressor at the configured level, an empty manager and no current session |
| AudioArchive.AudioArchiveService.StartRecordingSession | src/services/audio_archive.rs:329-365 | a start is refused while a session is active; otherwise a recorder failure changes nothing and a success stores the new session and makes it current |
| AudioArchive.AudioArchiveService.StopRecordingSession | src/services/audio_archive.rs:368-391 | stopping fails without a session; otherwise the session is taken first, then stopped, stored, sized and updated in the manager |
| AudioArchive.AudioArchiveService.PauseRecording | src/services/audio_archive.rs:394-402 | pausing fails without a session, else reports the recorder's answer |
| AudioArchive.AudioArchiveService.ResumeRecording | src/services/audio_archive.rs:405-413 | resuming fails without a session, else reports the recorder's answer |
| AudioArchive.AudioArchiveService.GetRecordingStatus | src/services/audio_archive.rs:416-430 | without a session, not recording and no duration; with one, the recorder's flag and duration |
| AudioArchive.AudioArchiveService.DeleteSession | src/services/audio_archive.rs:447-452 | storage deletes first, and only on success is the session removed from the manager |
| AudioArchive.RecordingLifecycle | src/services/audio_archive.rs:752-780 | starting "Test Session", checking the status and stopping with a thousand samples returns that session sized at 4000 bytes |
| AudioArchive.StartTwice | src/services/audio_archive.rs:329-332 | a second start while a session is active is refused and leaves the first one current |
| AudioCommands.CapturedNumber | src/services/voice_commands/audio_commands.rs:17-20 | no capture gives no number; a captured run of digits gives its value exactly when the value fits the integer type, and nothing otherwise |
| AudioCommands.SampleRateSet | src/services/voice_commands/audio_commands.rs:16-38 | the rate is set exactly when the captured u32 is one of 8000, 16000, 22050, 44100, 48000, 96000; an unsupported rate and an unparsable text give their two distinct errors and leave the context unchanged |
| AudioCommands.DeviceSwitched | src/services/voice_commands/audio_commands.rs:82-96 | the device is switched exactly when a name is captured; the trimmed name, a piece of the text, becomes the current device; otherwise "Could not parse device name" with the context unchanged |
| AudioCommands.VolumeAdjusted | src/services/voice_commands/audio_commands.rs:140-160 | the context is never written; the command succeeds exactly when the captured u8 is at most 100, and otherwise reports the out-of-range or the parse error |
| AudioCommands.BufferSizeSet | src/services/voice_commands/audio_commands.rs:298-320 | the buffer size is set exactly when the captured usize is one of the supported sizes; otherwise the context is unchanged and the matching error is returned |
| AudioCommands.AudioSettings | src/services/voice_commands/audio_commands.rs:610-628 | the report starts with "Audio Settings:" and ends with the current device, "Default" when none is selected |
| AudioCommands.Execute | src/services/voice_commands/audio_commands.rs:16-628 | only the sample-rate, device, volume and buffer-size commands can fail, and failures leave the context unchanged; only the sample-rate, device and buffer-size commands write the context; mode and speech-to-text state are never touched |
| AudioCommands.DefaultFormatSupported | src/services/voice_commands.rs:721-733 | the default context's sample rate 16000 and buffer size 1024 are supported values |
| AudioCommands.ExecuteKeepsFormatSupported | src/services/voice_commands/audio_commands.rs:16-320 | no audio command leaves an unsupported sample rate or buffer size behind |
| AudioCommands.NamesDistinct | src/services/voice_commands/audio_commands.rs:668-683 | the registered audio commands have pairwise distinct names |
| AudioCommands.SampleRateExample | src/services/voice_commands/audio_commands.rs:16-38 | "set sample rate to 44100" sets the rate to 44100 and replies "Sample rate set to 44100Hz" |
| AudioCommands.SampleRateExampleNumber | src/services/voice_commands/audio_commands.rs:17-20 | the number captured from "set sample rate to 44100" is 44100 |
| AudioCommands.SampleRateExampleMatch | src/services/voice_commands/audio_commands.rs:17 | the sample-rate expression matches "set sample rate to 44100" from position 4 to the end, capturing positions 19 to 24 |
| AudioCommands.DeviceExampleCapture | src/services/voice_commands/audio_commands.rs:82-86 | the device expression captures "usb headset" from "switch to device usb headset" |
| AudioCommands.DeviceExample | src/services/voice_commands/audio_commands.rs:82-96 | "switch to device usb headset" selects the device "usb headset" |
| AudioMenu.NavigateTo | src/services/audio_menu.rs:682-687 | navigating pushes the current menu, switches to the target and selects the first row |
| AudioMenu.GoBack | src/services/audio_menu.rs:690-696 | going back pops the previous menu and selects its first row; at the root nothing changes |
| AudioMenu.NavigateThenBack | src/services/audio_menu.rs:682-696 | going back after navigating restores the menu and its history |
| AudioMenu.BackShrinksHistory | src/services/audio_menu.rs:690-696 | going back removes exactly one history entry unless the history is empty |
| AudioMenu.Shortcut | src/services/audio_menu.rs:699-714 | shortcut letters navigate only in the main menu and always continue |
| AudioMenu.ExecuteSelected | src/services/audio_menu.rs:633-679 | main-menu rows 0 to 5 navigate and row 6 exits; recording-menu rows pause, stop, start or open settings depending on the recording state; other menus continue unchanged |
| AudioMenu.KeyStep | src/services/audio_menu.rs:599-630 | up and k move the selection up without going below 0, down and j move it down, enter and space execute, escape and backspace go back, q exits only from the main menu |
| AudioMenu.ExitOnlyFromMain | src/services/audio_menu.rs:618-645 | only q in the main menu and main-menu row 6 end the menu loop |
| AudioMenu.ShortcutsOnlyInMain | src/services/audio_menu.rs:625-626 | outside the main menu, unhandled letters change nothing |
| AudioMenu.AudioRecordingMenu.constructor | src/services/audio_menu.rs:117-126 | a menu at the main screen, first row, no history, default configuration |
| AudioMenu.AudioRecordingMenu.Navigate | src/services/audio_menu.rs:682-687 | the state becomes the navigation's result |
| AudioMenu.AudioRecordingMenu.Back | src/services/audio_menu.rs:690-696 | the state becomes the going-back result |
| AudioMenu.AudioRecordingMenu.HandleShortcut | src/services/audio_menu.rs:699-714 | result and state are the shortcut's |
| AudioMenu.AudioRecordingMenu.ExecuteSelectedAction | src/services/audio_menu.rs:633-672 | result and state are the selected action's; an archive error leaves the state alone |
| AudioMenu.AudioRecordingMenu.HandleKeyEvent | src/services/audio_menu.rs:599-630 | result and state are the key step's; an archive error leaves the state alone |
| AudioMenu.MenuScenario | src/services/audio_menu.rs:599-714 | a new menu starts at the main menu; r opens recording, escape comes back and q exits |
| AudioSessionManager.SanitizeFilename | src/services/audio_session_manager.rs:520-527 | every unsafe character becomes an underscore, every safe one is kept, and at most 50 characters remain |
| AudioSessionManager.SanitizeFilenameIdempotent | src/services/audio_session_manager.rs:520-527 | sanitising twice changes nothing more, and a short safe name is kept as it is |
| AudioSessionManager.SanitizeExample | src/services/audio_session_manager.rs:1061-1074 | "Test/Session:With*Invalid?Chars" becomes "Test_Session_With_Invalid_Chars", as the test expects |
| AudioSessionManager.SessionDirectory | src/services/audio_session_manager.rs:623-635 | a new session's directory lies under <storage>/sessions/<date>/ and ends with _<id> |
| AudioSessionManager.Cleaned | src/services/audio_session_manager.rs:716-733 | silence removal fails exactly when an in-bounds segment is inverted, where the slice panics |
| AudioSessionManager.RemoveSilenceFromAudio | src/services/audio_session_manager.rs:716-733 | the loop returns the in-bounds segments' samples concatenated in order, or the panic |
| AudioSessionManager.CleanedLength | src/services/audio_session_manager.rs:716-733 | without inverted segments the result holds exactly the samples of the in-bounds segments |
| AudioSessionManager.CleanedSkipsOutOfRange | src/services/audio_session_manager.rs:719-723 | an out-of-range segment adds nothing |
| AudioSessionManager.DetectedSegmentsNeverPanic | src/services/audio_session_manager.rs:653-704 | segments that start before they end, as the detector emits them, never make silence removal panic |
| AudioSessionManager.InvertedSegmentPanics | src/services/audio_session_manager.rs:716-733 | a segment (3, 1) inside four samples panics, while one starting past the end is skipped |
| AudioSessionManager.OldestStart | src/services/audio_session_manager.rs:967-969 | the earliest start in the history: present exactly when there is a session, attained and a lower bound |
| AudioSessionManager.NewestStart | src/services/audio_session_manager.rs:971-973 | the latest start in the history: present exactly when there is a session, attained and an upper bound |
| AudioSessionManager.StorageStatsOf | src/services/audio_session_manager.rs:960-983 | the statistics count the history, sum its sizes and durations, bound its start times and report a ratio of 1 |
| AudioSessionManager.StorageStatsAppend | src/services/audio_session_manager.rs:960-983 | one more stopped session adds its size and duration and stays within the start-time bounds |
| AudioSessionManager.SessionManager.constructor | src/services/audio_session_manager.rs:162-191 | a manager that is Idle, with no session, an empty buffer and history and no measured sample rate |
| AudioSessionManager.SessionManager.IsRecording | src/services/audio_session_manager.rs:428-434 | recording exactly in the Recording state; a paused session does not count |
| AudioSessionManager.SessionManager.StartRecordingSession | src/services/audio_session_manager.rs:204-311 | AlreadyRecording only while Recording and a storage failure when the directory cannot be made, both changing nothing; otherwise a fresh Recording session with an empty buffer and no measured rate |
| AudioSessionManager.SessionManager.OnAudioFrame | src/services/audio_session_manager.rs:266-290 | the first frame fixes the measured sample rate, and samples are buffered only while Recording |
| AudioSessionManager.SessionManager.StopRecordingSession | src/services/audio_session_manager.rs:314-389 | without a session Ok(None) and nothing changes; otherwise the session ends with a non-negative duration, the measured rate, the saved size, joins the history and the manager is Idle with an empty buffer |
| AudioSessionManager.SessionManager.PauseRecordingSession | src/services/audio_session_manager.rs:392-407 | only a Recording session pauses; otherwise false and nothing changes |
| AudioSessionManager.SessionManager.ResumeRecordingSession | src/services/audio_session_manager.rs:410-425 | only a Paused session resumes; otherwise false and nothing changes |
| AudioSessionManager.SessionManager.AddTranscriptSegment | src/services/audio_session_manager.rs:447-479 | without a session nothing happens; otherwise a final segment with the text's whitespace word count is appended |
| AudioSessionManager.SessionManager.GetStorageStats | src/services/audio_session_manager.rs:960-983 | the statistics of the session history |
| AudioSessionManager.RecordingLifecycle | src/services/audio_session_manager.rs:204-425 | start, pause, a refused second pause, resume and stop leave one session of 5000 ms in the history, and a second start while Recording fails |
| AudioSessionManager.PausedSessionReplaced | src/services/audio_session_manager.rs:204-215 | a paused session is replaced by a new start, since pausing is not recording |
| AudioStorage.DefaultStorageConfig | src/services/audio_storage.rs:920-929 | the default storage compresses to FLAC under 100 MB files, keeps checksums, updates the index every minute and has no backups |
| AudioStorage.Push | src/services/audio_storage.rs:684-688 | filing an id under a key appends it to that key's list, creating the list if needed, and leaves other keys alone |
| AudioStorage.PushAllSpec | src/services/audio_storage.rs:687-689 | after filing under several tags, a key is present iff it was or is one of them, the id is listed under each, other keys keep their lists and old lists survive as prefixes |
| AudioStorage.DroppedSpec | src/services/audio_storage.rs:701-708 | dropping an id under a key removes it from that list, drops a list that becomes empty and touches nothing else |
| AudioStorage.DroppedAllSpec | src/services/audio_storage.rs:710-718 | the same over every tag of the session |
| AudioStorage.SortByDate | src/services/audio_storage.rs:693 | sorting the date index is a permutation |
| AudioStorage.SortByDateInOrder | src/services/audio_storage.rs:693 | the sorted date index is oldest first |
| AudioStorage.Retained | src/services/audio_storage.rs:721 | retaining never lengthens the date index |
| AudioStorage.RetainedSpec | src/services/audio_storage.rs:721 | retaining drops exactly the entries of the id and keeps the order of the rest |
| AudioStorage.RetainedInOrder | src/services/audio_storage.rs:721 | retaining keeps the date index oldest first |
| AudioStorage.AddKeepsIndexed | src/services/audio_storage.rs:676-696 | adding a session keeps every session findable by name, tag and date, the new one included |
| AudioStorage.RemoveKeepsIndexed | src/services/audio_storage.rs:458-469 | removing a session and its index entries keeps every other session findable and leaves no trace of it |
| AudioStorage.SessionIndex.constructor | src/services/audio_storage.rs:666-674 | an empty index at version 1 |
| AudioStorage.SessionIndex.AddSession | src/services/audio_storage.rs:676-696 | the metadata is placed under its id and the id filed under its lower-cased name, every tag and its start date |
| AudioStorage.SessionIndex.RemoveFromIndexes | src/services/audio_storage.rs:698-722 | the id leaves the lists under its name and tags, empty lists are dropped, and it leaves the date index |
| AudioStorage.SessionIndex.PushTags | src/services/audio_storage.rs:687-689 | the tag loop files the id under every tag |
| AudioStorage.SessionIndex.DropTags | src/services/audio_storage.rs:710-718 | the tag loop drops the id under every tag |
| AudioStorage.SanitizeFilename | src/services/audio_storage.rs:773-777 | every unsafe character becomes an underscore and every safe one is kept, position by position |
| AudioStorage.SanitizeIdempotent | src/services/audio_storage.rs:773-777 | sanitising twice changes nothing more, and a safe name is kept |
| AudioStorage.SessionDir | src/services/audio_storage.rs:735-760 | the directory is the base path or lies under it |
| AudioStorage.GeneratePath | src/services/audio_storage.rs:735-771 | the generated path lies under the base path and ends in .wav |
| AudioStorage.StoragePathLayout | src/services/audio_storage.rs:226-232 | the storage's own layout is <base>/<date>/<id>.wav, so two sessions of one day never share a file |
| AudioStorage.NewEngineStats | src/services/audio_storage.rs:885-894 | the statistics start at zero with no format entries |
| AudioStorage.UpdateKeepsBalanced | src/services/audio_storage.rs:896-915 | recording a file adds it to the overall and its format's totals, leaves other formats alone, and the averages are the ratios of the new totals |
| AudioStorage.CompressionEngine.constructor | src/services/audio_storage.rs:782-795 | an engine with encoders for FLAC, Opus and MP3 and zero statistics |
| AudioStorage.CompressionEngine.CompressAudio | src/services/audio_storage.rs:797-807 | a format without an encoder is an error that changes nothing; otherwise the encoded size, with the file counted |
| AudioStorage.MatchingMembers | src/services/audio_storage.rs:388-445 | the matches are exactly the stored sessions that meet every criterion |
| AudioStorage.ListingSpec | src/services/audio_storage.rs:385-456 | the listing holds only stored matching sessions, newest first, at most the limit; without a limit every match, and with one no match left out is newer than one kept |
| AudioStorage.OldestStart | src/services/audio_storage.rs:513-515 | the earliest start among the sessions visited, present exactly when there is one |
| AudioStorage.NewestStart | src/services/audio_storage.rs:517-519 | the latest start among the sessions visited, present exactly when there is one |
| AudioStorage.StorageStatsSpec | src/services/audio_storage.rs:479-529 | the statistics count every session once and sum sizes and durations over all of them; the ratio is 1 when nothing is stored or compressed, else compressed over original |
| AudioStorage.ExtremesOrderFree | src/services/audio_storage.rs:513-519 | the oldest and newest starts do not depend on the visiting order |
| AudioStorage.StorageStatsOrderFree | src/services/audio_storage.rs:479-529 | the statistics do not depend on the visiting order |
| AudioStorage.SizeCap | src/services/audio_storage.rs:627 | the cap is the limit in bytes truncated toward zero: 0 for a negative limit and at most the largest u64 |
| AudioStorage.AgedSpec | src/services/audio_storage.rs:610-613 | the aged sessions are exactly those started before the cutoff, each once |
| AudioStorage.WithoutNothing | src/services/audio_storage.rs:616-623 | removing no session leaves the store as it was |
| AudioStorage.SurvivorsSpec | src/services/audio_storage.rs:631 | the remaining sessions are each visited once |
| AudioStorage.ByAge | src/services/audio_storage.rs:631-633 | the sessions ordered by age are a permutation of those visited |
| AudioStorage.ByAgeOldestFirst | src/services/audio_storage.rs:633 | the size phase visits the sessions oldest first |
| AudioStorage.Victims | src/services/audio_storage.rs:638-653 | the size phase deletes a prefix of the sessions oldest first |
| AudioStorage.VictimsSpec | src/services/audio_storage.rs:638-653 | the victims are at most the fence, each deleted while the remaining total exceeded the cap, and deletion stops only at the cap, the fence or the end |
| AudioStorage.KeepsNewest | src/services/audio_storage.rs:643-645 | with the corrected fence the keep newest sessions are never deleted for size |
| AudioStorage.PlanCleanup | src/services/audio_storage.rs:602-654 | the age phase removes stored sessions and the size phase removes sessions left after it |
| AudioStorage.OldestVictims | src/services/audio_storage.rs:629-654 | the size phase deletes only stored sessions |
| AudioStorage.WrappedFence | src/services/audio_storage.rs:643 | as a release build computes it, len - keep wraps around when keep exceeds len, putting the fence past every session |
| AudioStorage.SizeVictims | src/services/audio_storage.rs:629-654 | as written, the size phase deletes only stored sessions |
| AudioStorage.SizeVictimsIntended | src/services/audio_storage.rs:629-654 | as intended, the size phase deletes only stored sessions |
| AudioStorage.SizePhaseTotals | src/services/audio_storage.rs:626-635 | visiting oldest first adds up the same total as the statistics, with no session twice |
| AudioStorage.OldestVictimsSpec | src/services/audio_storage.rs:629-654 | nothing is deleted unless the total exceeds the cap, and then a prefix oldest first no longer than the fence |
| AudioStorage.SizeVictimsSpec | src/services/audio_storage.rs:636-645 | as written, the keep newest are spared only when there are at least that many sessions; with fewer the fence never stops deletion |
| AudioStorage.SizeVictimsIntendedSpec | src/services/audio_storage.rs:636-645 | as intended, the size phase never deletes one of the keep newest sessions |
| AudioStorage.PlanCleanupSpec | src/services/audio_storage.rs:602-654 | the age phase removes exactly the sessions started before the cutoff, each once, and the size phase visits each remaining session once |
| AudioStorage.CleanupWrapExample | src/services/audio_storage.rs:636-645 | under the default policy (keep 10, cap 10 GiB) a store with one 11 GiB session loses it as written, while the intended fence keeps it |
| AudioStorage.StoredMetadata | src/services/audio_storage.rs:279-348 | the filed metadata carries the session's own fields, the written path and size, the checksum when enabled and the compression information when compressing |
| AudioStorage.FileAudioStorage.constructor | src/services/audio_storage.rs:203-239 | an empty index, files organised by date and named by session id, and a fresh compression engine |
| AudioStorage.FileAudioStorage.StoreAudio | src/services/audio_storage.rs:279-348 | with compression on a WAV session is an error that changes nothing; otherwise the file is written at the generated path and the metadata filed |
| AudioStorage.FileAudioStorage.DeleteSession | src/services/audio_storage.rs:458-477 | an unknown id is SessionNotFound and changes nothing; otherwise the session leaves the index and its indexes and its file is removed |
| AudioStorage.FileAudioStorage.ListSessions | src/services/audio_storage.rs:385-456 | the listing equals its specification |
| AudioStorage.FileAudioStorage.GetStorageStats | src/services/audio_storage.rs:479-529 | the statistics count every stored session and sum sizes and durations over all of them |
| AudioStorage.FileAudioStorage.CleanupOldFiles | src/services/audio_storage.rs:602-661 | the aged sessions go first, then the size phase as written; the counts and the freed space are those of the deleted sessions |
| AudioStorage.FileAudioStorage.DeleteForSize | src/services/audio_storage.rs:625-654 | the size phase deletes exactly its victims as written |
| AudioStorage.FileAudioStorage.DeleteAged | src/services/audio_storage.rs:616-623 | each aged session is deleted and its size added to the freed space |
| AudioStorage.FileAudioStorage.DeleteOldest | src/services/audio_storage.rs:638-653 | the loop deletes exactly the victims of the fence, oldest first |
| AudioStorage.FileAudioStorage.DeleteNext | src/services/audio_storage.rs:646-652 | one turn deletes the next oldest and moves its size from what is left to what is freed |
| AudioStorage.FileAudioStorage.DeleteNth | src/services/audio_storage.rs:652 | deleting the next oldest session, which is still stored, frees its size |
| AudioStorage.FileAudioStorage.DeleteKnown | src/services/audio_storage.rs:458-477 | deleting a stored session cannot fail and removes exactly it |
| BasicCommands.WithVad | src/services/voice_commands/basic_commands.rs:16-21 | enabling or disabling voice detection succeeds, sets exactly the VAD flag and reports "Voice Activity Detection enabled/disabled" |
| BasicCommands.SensitivityIncreased | src/services/voice_commands/basic_commands.rs:120-128 | the sensitivity grows by 0.05, capped at 1.0, it never decreases from a value within range, and only the sensitivity changes; the message shows old and new values to two decimals |
| BasicCommands.SensitivityDecreased | src/services/voice_commands/basic_commands.rs:172-180 | the sensitivity drops by 0.05, floored at 0.0, and only the sensitivity changes; the message shows old and new values |
| BasicCommands.SensitivitySet | src/services/voice_commands/basic_commands.rs:377-396 | the command fails with "Could not parse sensitivity value" and leaves the context alone exactly when no parsable number is captured after "sensitivity to"; otherwise it sets the number clamped to [0, 1] |
| BasicCommands.InstantOutputToggled | src/services/voice_commands/basic_commands.rs:224-233 | the instant-output flag flips, nothing else changes, and the reply names the new state and carries it as data |
| BasicCommands.WithMode | src/services/voice_commands/basic_commands.rs:277-332 | the narration commands set exactly the mode and succeed with their message |
| BasicCommands.StatusReport | src/services/voice_commands/basic_commands.rs:443-466 | the status data holds exactly the keys mode, vad_enabled, sensitivity, instant_output and current_model, each with the context's value |
| BasicCommands.Execute | src/services/voice_commands/basic_commands.rs:16-526 | only setting the sensitivity can fail, and then the context is unchanged; every success is a success result; status and help never change the context |
| BasicCommands.ExecuteKeepsSensitivityInRange | src/services/voice_commands/basic_commands.rs:120-396 | every basic command keeps a sensitivity in [0, 1] within [0, 1] |
| BasicCommands.ToggleTwiceRestores | src/services/voice_commands/basic_commands.rs:224-233 | toggling instant output twice restores the context |
| BasicCommands.VadIdempotent | src/services/voice_commands/basic_commands.rs:16-73 | enabling (or disabling) voice detection twice is the same as once |
| BasicCommands.IncreaseThenDecrease | src/services/voice_commands/basic_commands.rs:120-180 | away from the bounds, decreasing undoes increasing |
| BasicCommands.NarrationRoundTrip | src/services/voice_commands/basic_commands.rs:277-332 | from normal mode, enabling then disabling narration restores the context |
| BasicCommands.NamesDistinct | src/services/voice_commands/basic_commands.rs:569-585 | the basic registry's commands have pairwise distinct names |
| BasicCommands.SetSensitivityExample | src/services/voice_commands/basic_commands.rs:377-396 | "sensitivity to 0.7" asks for 0.7 |
| BasicCommands.SensitivityCaptureExample | src/services/voice_commands/basic_commands.rs:379-381 | the expression `sensitivity to ([\d.]+)` captures "0.7" from "sensitivity to 0.7" |
| BasicCommands.DecimalExample | src/services/voice_commands/basic_commands.rs:382 | "0.7" parses as 0.7 |
| Catalog.Execute | src/services/voice_commands.rs:188-190 | whatever the command, an error leaves the context as it was and a result that is not an error reports success |
| Catalog.Names | src/services/voice_commands/comprehensive_registry.rs:36-86 | the names of a command list, position by position |
| Catalog.RegisteredCount | src/services/voice_commands/comprehensive_registry.rs:36-86 | the registry registers 10 basic, 12 audio, 8 recording, 12 transcript, 11 speech-to-text, 12 system and 17 specialised commands, 82 in all |
| Catalog.RegisteredNamesDistinct | src/services/voice_commands/comprehensive_registry.rs:36-118 | no two registered commands share a name, so no registration replaces another in the engine's map |
| Catalog.CountIn | src/services/voice_commands/comprehensive_registry.rs:591-604 | the number of commands of one category is at most the number of commands |
| Catalog.OnceEach | src/services/voice_commands/comprehensive_registry.rs:591-603 | every category appears exactly once in the category list |
| Catalog.SumCountsAll | src/services/voice_commands/comprehensive_registry.rs:606-609 | counting per category and adding the categories up counts every command exactly once |
| Catalog.CountsOf | src/services/voice_commands/comprehensive_registry.rs:591-604 | as intended: the table of counts computed from the registered commands, one entry per category |
| Catalog.TotalCommandCount | src/services/voice_commands/comprehensive_registry.rs:606-609 | as intended: the total of the computed table equals the number of commands |
| Catalog.TotalCountAsWrittenTooLow | src/services/voice_commands/comprehensive_registry.rs:591-630 | the hand-written table sums to 48, below the 75 the test demands and different from the 82 commands registered, while the computed total is 82 |
| Common.LevenshteinMatrix | src/services/transcription_deduplication.rs:318-355 | the (len1+1)x(len2+1) matrix, first row and column counting up and each cell the cheapest of deletion, insertion and substitution, ends with the edit distance of the two sequences |
| Common.EditDistanceSelf | src/services/transcription_deduplication.rs:310-358 | a sequence is at distance 0 from itself |
| Common.EditDistanceZeroIff | src/services/transcription_deduplication.rs:310-358 | the distance is 0 exactly when the two sequences are equal |
| Common.EditDistanceSymmetric | src/services/transcription_deduplication.rs:310-358 | the distance does not depend on the order of the arguments |
| Common.EditDistanceUpper | src/services/transcription_deduplication.rs:310-358 | the distance is at most the longer length |
| Common.EditDistanceLower | src/services/transcription_deduplication.rs:310-358 | the distance is at least the difference of the lengths |
| ContextManager.CompareValuesNumbers | src/services/voice_commands/context_manager.rs:468-475 | numbers compare equal exactly when less than 0.001 apart, and values of different kinds never compare equal |
| ContextManager.InHoursWraps | src/services/voice_commands/context_manager.rs:382-388 | a wrapping hour range holds exactly at the hours outside the open gap between its end and its start |
| ContextManager.MissingVariableFails | src/services/voice_commands/context_manager.rs:369-374 | a condition reading a session variable that is not set fails |
| ContextManager.MatchingFactors | src/services/voice_commands/context_manager.rs:478-486 | exactly the conditions that hold, in order |
| ContextManager.MirroredConditions | src/services/voice_commands/context_manager.rs:177-189 | after a context update the audio and speech-to-text conditions describe exactly the context given |
| ContextManager.HourOf | src/services/voice_commands/context_manager.rs:503-504 | the hour of a timestamp is below 24 |
| ContextManager.BumpHourCounts | src/services/voice_commands/context_manager.rs:503-514 | recording a run counts its hour once more, leaves other hours alone and keeps one bucket per hour |
| ContextManager.BumpTransition | src/services/voice_commands/context_manager.rs:524-533 | the transition list grows by at most one entry |
| ContextManager.BumpTransitionBounded | src/services/voice_commands/context_manager.rs:524-533 | transition probabilities stay in [0.1, 1]; other entries are unchanged and an unseen successor is added at 0.1 at the end |
| ContextManager.BumpTransitionReinforces | src/services/voice_commands/context_manager.rs:524-526 | the first entry for the successor becomes min(0.9p + 0.1, 1) |
| ContextManager.TransitBounded | src/services/voice_commands/context_manager.rs:517-535 | learning transitions keeps every probability bounded, and with fewer than two runs remembered changes nothing |
| ContextManager.AddRuleSorted | src/services/voice_commands/context_manager.rs:328-332 | adding a rule keeps the rules sorted by descending priority and adds exactly that rule |
| ContextManager.RuleCandidates | src/services/voice_commands/context_manager.rs:196-205 | every rule candidate is a disambiguation with confidence at least 0.9 |
| ContextManager.RuleCandidatesExact | src/services/voice_commands/context_manager.rs:196-205 | a rule candidate names a command exactly when a rule resolving to it fires |
| ContextManager.PredictionCandidates | src/services/voice_commands/context_manager.rs:218-229 | prediction candidates are the mode's predicted commands containing the lower-cased input, each at 0.7 |
| ContextManager.PreferenceCandidates | src/services/voice_commands/context_manager.rs:208-215 | there is a preference candidate, at 0.85, exactly when the input is a preferred pattern |
| ContextManager.SortedCandidatePieces | src/services/voice_commands/context_manager.rs:231-233 | in the sorted resolution a preference appears exactly when there is one, and a rule candidate comes first whenever one fires |
| ContextManager.ResolveShape | src/services/voice_commands/context_manager.rs:192-234 | the resolution is sorted by descending confidence, holds exactly the candidates, and puts a firing rule first |
| ContextManager.ModeSuggestionsOrdered | src/services/voice_commands/context_manager.rs:548-632 | each mode offers one or two suggestions, sorted, with no two neighbours of the same name |
| ContextManager.FrequencyPairs | src/services/voice_commands/context_manager.rs:539-541 | one pair per command, with its recorded count |
| ContextManager.FrequentCommandsShape | src/services/voice_commands/context_manager.rs:538-545 | at most limit commands, by descending use, each with its recorded count |
| ContextManager.DedupAfter | src/services/voice_commands/context_manager.rs:295 | deduplication keeps a sub-list of what follows the kept suggestion |
| ContextManager.DedupByName | src/services/voice_commands/context_manager.rs:295 | deduplication keeps a sub-list no longer than its input |
| ContextManager.DedupAfterAdjacent | src/services/voice_commands/context_manager.rs:295 | after deduplication no two neighbours share a name |
| ContextManager.DedupAfterSorted | src/services/voice_commands/context_manager.rs:294-295 | deduplicating a sorted list leaves it sorted |
| ContextManager.DedupAfterNames | src/services/voice_commands/context_manager.rs:295 | deduplication keeps every name that occurred |
| ContextManager.DedupByNameShape | src/services/voice_commands/context_manager.rs:294-295 | deduplication leaves no same-named neighbours, keeps the order and keeps every name |
| ContextManager.DedupAfterNothing | src/services/voice_commands/context_manager.rs:295 | without same-named neighbours deduplication drops nothing |
| ContextManager.NextShape | src/services/voice_commands/context_manager.rs:237-299 | next-command suggestions are at most ten, sorted by descending confidence, without same-named neighbours, each one a candidate |
| ContextManager.TakeKeepsShape | src/services/voice_commands/context_manager.rs:296 | truncating a sorted list without same-named neighbours keeps both properties |
| ContextManager.NextWithoutHistory | src/services/voice_commands/context_manager.rs:241-260 | with nothing learned, the mode's own suggestions are all there is, in order |
| ContextManager.WithPrefix | src/services/voice_commands/context_manager.rs:339-353 | exactly the strings that start with the partial input, in order |
| ContextManager.CompletionsShape | src/services/voice_commands/context_manager.rs:335-358 | completions are strictly sorted and hold exactly the preferred and context-preferred patterns starting with the partial input |
| ContextManager.CompletionsOrderFree | src/services/voice_commands/context_manager.rs:339-357 | completions do not depend on the order the hash map is walked |
| ContextManager.CommandContextManager.constructor | src/services/voice_commands/context_manager.rs:165-174 | a manager in normal mode with empty history, session and rules and the default preferences and predictions |
| ContextManager.CommandContextManager.UpdateContext | src/services/voice_commands/context_manager.rs:177-189 | the mode is taken and four context fields are mirrored into the session, nothing else changes |
| ContextManager.CommandContextManager.SetSessionVar | src/services/voice_commands/context_manager.rs:318-320 | the variable is set and reads back, nothing else changes |
| ContextManager.CommandContextManager.SessionVarOf | src/services/voice_commands/context_manager.rs:323-325 | a value exactly for the keys that are set |
| ContextManager.CommandContextManager.AddDisambiguationRule | src/services/voice_commands/context_manager.rs:328-332 | the rule is added and the rules stay sorted, nothing else changes |
| ContextManager.CommandContextManager.RecordCommandExecution | src/services/voice_commands/context_manager.rs:302-315 | the run is appended to a history of at most 50 and, when learning is on, counted, its hour bumped and its transition reinforced |
| ContextManager.CommandContextManager.ResolveAmbiguousCommand | src/services/voice_commands/context_manager.rs:192-234 | the resolution equals its specification |
| ContextManager.CommandContextManager.SuggestFrequent | src/services/voice_commands/context_manager.rs:281-291 | one suggestion per frequent command at its count over a hundred, capped at 0.8 |
| ContextManager.CommandContextManager.SuggestNextCommands | src/services/voice_commands/context_manager.rs:237-299 | the suggestions equal their specification |
| ContextManager.CommandContextManager.CollectSuggestions | src/services/voice_commands/context_manager.rs:238-291 | mode, transition and frequency suggestions, in that order |
| ContextManager.CommandContextManager.SuggestionsAfterLast | src/services/voice_commands/context_manager.rs:263-278 | the transitions out of the newest remembered command whose conditions hold |
| ContextManager.CommandContextManager.GetCommandCompletions | src/services/voice_commands/context_manager.rs:335-358 | the completions equal their specification |
| ContextManager.FrequencyLearningScenario | src/services/voice_commands/context_manager.rs:744-759 | two recorded runs of the same command count it twice |
| ContextManager.RecordRuleResolves | src/services/voice_commands/context_manager.rs:726-741 | a "record" rule for normal mode resolves "record audio" first to start_recording |
| ContextManager.DisambiguationScenario | src/services/voice_commands/context_manager.rs:726-741 | the same, through the manager's methods |
| ContextManager.NarrationSuggestionScenario | src/services/voice_commands/context_manager.rs:762-769 | in narration mode with nothing learned, stopping narration is suggested |
| CoreTypes.NewSttResult | src/core/types.rs:512-522 | a new result keeps the given text, confidence, model and backend, has no language, zero processing time and the given timestamp |
| CoreTypes.WithLanguage | src/core/types.rs:525-528 | only the language changes, to the given one |
| CoreTypes.WithProcessingTime | src/core/types.rs:531-534 | only the processing time changes |
| CoreTypes.ConfidenceBands | src/core/types.rs:537-544 | no result is both high (>= 0.8) and low (< 0.6) confidence; exactly the results in [0.6, 0.8) are neither |
| CoreTypes.MarkFinal | src/core/types.rs:559-562 | the partial result becomes final and nothing else changes |
| CoreTypes.NewText | src/core/types.rs:390-399 | new text content is text-only, not empty, and yields its text back |
| CoreTypes.TextOnlyNotEmpty | src/core/types.rs:407-424 | content is never both text-only and empty; content with no other formats is one of the two |
| CoreTypes.WithTag | src/core/types.rs:366-370 | the tag is present afterwards; an existing tag leaves the list unchanged, a new one is appended |
| CoreTypes.WithoutTag | src/core/types.rs:373-375 | the tag is absent afterwards, every other tag stays, and the list does not grow |
| CoreTypes.WithTagNoDuplicates | src/core/types.rs:366-370 | adding keeps a duplicate-free list duplicate-free, and adding twice equals adding once |
| CoreTypes.WithoutTagKeepsOrder | src/core/types.rs:373-375 | removing keeps the remaining tags in order, so no duplicate appears, and removing an absent tag changes nothing |
| CoreTypes.ClipboardItem.constructor | src/core/types.rs:343-357 | a new item has the given id, content and source, both times equal to now, zero accesses, no tags, not pinned, no app context |
| CoreTypes.ClipboardItem.MarkAccessed | src/core/types.rs:360-363 | the access time becomes now, the access count grows by one, every other field is unchanged |
| CoreTypes.ClipboardItem.AddTag | src/core/types.rs:366-370 | the tags become `WithTag` of the old tags; every other field is unchanged |
| CoreTypes.ClipboardItem.RemoveTag | src/core/types.rs:373-375 | the tags become `WithoutTag` of the old tags; every other field is unchanged |
| CoreTypes.ClipboardItem.TogglePinned | src/core/types.rs:383-385 | the pin flag flips; every other field is unchanged |
| CoreTypes.ClipboardItemScenario | src/core/types.rs:570-586 | a new item has no accesses and no pin; a tag added twice is kept once and is gone after removal; toggling twice restores the pin |
| CoreTypes.NewHotkey | src/core/types.rs:429-437 | a new hotkey has the key and no modifier |
| CoreTypes.ModifierNames | src/core/types.rs:465-483 | the printed modifiers are at most four, each one of Ctrl, Alt, Shift, Meta |
| CoreTypes.ApplyModifiersShape | src/core/types.rs:488-507 | modifier parsing succeeds exactly when every piece is a known modifier (case-insensitive), then sets exactly the named flags and keeps the key; otherwise it reports "Unknown modifier: " with an unknown piece |
| CoreTypes.FromString | src/core/types.rs:488-507 | the loop over the pieces computes `ParseHotkey` |
| CoreTypes.ModifierNamesParse | src/core/types.rs:465-507 | each printed modifier name parses back as a modifier, and it names a modifier exactly when the hotkey has that flag |
| CoreTypes.HotkeyRoundTrip | src/core/types.rs:465-507 | printing a hotkey whose key has no '+' and parsing it back gives the same hotkey |
| CoreTypes.CtrlAltSExample | src/core/types.rs:589-608 | Ctrl+Alt+S is built by the builders, prints as "Ctrl+Alt+S" and parses back to itself |
| Deduplication.KeepAlnumSpace | src/services/transcription_deduplication.rs:293 | normalisation's filter keeps only alphanumeric and whitespace characters, in order |
| Deduplication.NormalizeShape | src/services/transcription_deduplication.rs:290-298 | normalised text is lower-case alphanumeric words joined by single spaces: the words of the filtered lower-cased text |
| Deduplication.NormalizeIdempotent | src/services/transcription_deduplication.rs:290-298 | normalising twice is normalising once |
| Deduplication.NormalizeExample | src/services/transcription_deduplication.rs:746-761 | "Hello, World! 123" and "HELLO WORLD 123" both normalise to "hello world 123", as the test expects |
| Deduplication.ContentHashIgnoresCaseAndPunctuation | src/services/transcription_deduplication.rs:247-287 | under content-based hashing, texts that normalise alike hash alike, whatever the hasher |
| Deduplication.LevenshteinDistance | src/services/transcription_deduplication.rs:361-401 | the matrix computes the edit distance |
| Deduplication.LevenshteinSimilarityBounds | src/services/transcription_deduplication.rs:405-419 | Levenshtein similarity lies in [0, 1] and is 1 exactly for equal texts |
| Deduplication.LevenshteinHeloExample | src/services/transcription_deduplication.rs:652-665 | "hello" against "helo" scores exactly 0.8 |
| Deduplication.NgramsShape | src/services/transcription_deduplication.rs:432-449 | the trigram set is never empty, holds every window of the text and only 3-character pieces of it; a short text is its own single gram |
| Deduplication.JaccardBounds | src/services/transcription_deduplication.rs:453-482 | Jaccard similarity lies in [0, 1], is 1 for equal texts and 0 without a common gram; the union is never empty |
| Deduplication.CombinedSimilarity | src/services/transcription_deduplication.rs:608-619 | the combined matcher's placeholder scores weigh to 0.72 for every pair |
| Deduplication.Similarity | src/services/transcription_deduplication.rs:405-619 | every matcher's similarity lies in [0, 1] |
| Deduplication.CombinedSimilarIff | src/services/transcription_deduplication.rs:608-619 | the combined matcher calls a pair similar exactly when the threshold is at most 0.72 |
| Deduplication.MatcherSimilarity | src/services/transcription_deduplication.rs:405-419 | the method computes each matcher's similarity, with edit distances from the matrix |
| Deduplication.MaxConfidenceIndex | src/services/transcription_deduplication.rs:210-213 | max_by picks the last of the most confident entries |
| Deduplication.MergeSimilar | src/services/transcription_deduplication.rs:195-232 | a single entry is returned as it is; otherwise the primary is the most confident, every entry is a source and the confidence is the mean |
| Deduplication.MergePrimaryIsMostConfident | src/services/transcription_deduplication.rs:210-227 | the merge takes its id and text from an entry no other is more confident than, with no equally confident one after it |
| Deduplication.MergeConfidenceWithin | src/services/transcription_deduplication.rs:215-217 | the combined confidence lies within any bounds all inputs lie within |
| Deduplication.CacheOf | src/services/transcription_deduplication.rs:173-180 | the cached entry keeps the transcript's id, hash, time and confidence and its normalised text |
| Deduplication.NewStats | src/services/transcription_deduplication.rs:634-643 | the statistics start at zero |
| Deduplication.FirstSimilarSpec | src/services/transcription_deduplication.rs:138-160 | the fuzzy search reports the earliest cached transcript inside the window that is similar enough, or nothing when none is |
| Deduplication.CombinedNeverSimilar | src/services/transcription_deduplication.rs:138-160 | with the combined matcher and a threshold above 0.72 no cached transcript is similar |
| Deduplication.ScanRecent | src/services/transcription_deduplication.rs:142-160 | the loop skips entries older than the cutoff and stops at the first one similar enough |
| Deduplication.ServiceConfigNeverSimilar | src/services/transcription_deduplication.rs:123-165 | at threshold 0.85 is_duplicate reports exact hash hits and otherwise Unique, never a similar transcript |
| Deduplication.DropStale | src/services/transcription_deduplication.rs:185-191 | eviction drops exactly the leading entries older than the cutoff |
| Deduplication.Counted | src/services/transcription_deduplication.rs:130-157 | an exact hit counts as exact, a similar transcript as fuzzy with the running mean updated, both in the total; Unique counts nothing |
| Deduplication.TranscriptDeduplicator.constructor | src/services/transcription_deduplication.rs:106-120 | empty caches and zero statistics |
| Deduplication.TranscriptDeduplicator.IsDuplicate | src/services/transcription_deduplication.rs:123-165 | the verdict is an exact hash hit first, then the first similar cached transcript when fuzzy matching is on; caches are untouched and only the statistics change |
| Deduplication.TranscriptDeduplicator.AddTranscript | src/services/transcription_deduplication.rs:168-192 | the hash maps to the entry's id, the entry joins the window last and stale entries leave from the front |
| Deduplication.TranscriptDeduplicator.Reset | src/services/transcription_deduplication.rs:240-244 | empty caches and zero statistics |
| Deduplication.AddKeepsWindow | src/services/transcription_deduplication.rs:168-192 | after adding a transcript inside the window to a chronological window, it stays last and only in-window transcripts remain |
| Deduplication.DeduplicationScenario | src/services/transcription_deduplication.rs:680-743 | the test's second check of "Hello, this is a test!" comes out Unique, not similar, because the combined matcher scores 0.72 < 0.8 |
| Deduplication.NothingCachedUnique | src/services/transcription_deduplication.rs:123-165 | with nothing cached every text is unique |
| Deduplication.CombinedMissUnique | src/services/transcription_deduplication.rs:123-165 | with the combined matcher above 0.72, a hash miss is unique |
| RecordingCommands.SessionsListed | src/services/voice_commands/audio_recording_commands.rs:217-233 | the listing succeeds, names the number of sessions in its heading and carries the newline-joined list as its data |
| RecordingCommands.Execute | src/services/voice_commands/audio_recording_commands.rs:15-395 | every recording command succeeds with a payload and leaves the context unchanged |
| RecordingCommands.StorageStatsReported | src/services/voice_commands/audio_recording_commands.rs:511-526 | the storage report succeeds with a message containing "Storage Statistics" |
| RecordingCommands.NamesDistinct | src/services/voice_commands/comprehensive_registry.rs:53-60 | eight recording commands are registered, with pairwise distinct names |
| Regexes.RunLength | src/services/voice_commands/basic_commands.rs:379 | the run of class characters from a position is maximal: every character in it is in the class and the next one is not |
| Regexes.ChoiceAt | src/services/voice_commands/stt_commands.rs:82 | an alternation takes the first alternative that matches at the position, and fails exactly when none does |
| Regexes.SearchFrom | src/services/voice_commands.rs:565 | the search reports the leftmost position where the expression matches, with the end the match reaches, and fails only when it matches nowhere |
| Regexes.CaptureIffMatch | src/services/voice_commands/basic_commands.rs:379-381 | `captures` finds a group exactly when `is_match` holds |
| Regexes.SearchLeftmost | src/services/voice_commands.rs:565 | a match at a position with none before it is the one the search reports |
| Regexes.CaptureShape | src/services/voice_commands/basic_commands.rs:379-381 | whatever group 1 captures has the shape of its character class (for `[\d.]+`: digits and dots, at least one) |
| Regexes.CaptureInText | src/services/voice_commands/basic_commands.rs:379-381 | the captured group is a piece of the text it came from |
| Regexes.LiteralChoiceCapture | src/services/voice_commands/stt_commands.rs:82 | a group that is an alternation of literals captures one of those literals |
| Regexes.CaptureAt | src/services/voice_commands/basic_commands.rs:379-381 | when no alternative occurs earlier, the capture is the group's span at the first match position |
| Regexes.CaptureNone | src/services/voice_commands/basic_commands.rs:379-381 | when no alternative occurs anywhere in the text, nothing is captured |
| Regexes.CaptureSimple | src/services/voice_commands/basic_commands.rs:379-381 | for a single-literal expression, the capture begins right after the first occurrence of the literal and ends where the group ends |
| VoiceTypes.ErrorTextInjective | src/services/voice_commands.rs:36-37 | two invalid-parameter errors with the same display text are the same error, so error counts keyed by text tell them apart |
| VoiceTypes.Exacts | src/services/voice_commands/basic_commands.rs:73-83 | the pattern list has one exact pattern per phrase, in order |
| Registration.InsertKeys | src/services/voice_commands.rs:352-353 | registering keeps every command stored under its own name |
| Registration.InsertLookup | src/services/voice_commands/comprehensive_registry.rs:36-86 | with distinct names no registration overwrites another, so every registered command is found under its name |
| Registration.InsertSize | src/services/voice_commands/comprehensive_registry.rs:36-86 | with distinct names new to the engine, every registration adds exactly one entry |
| Registration.InsertKeysPlain | src/services/voice_commands.rs:352-353 | the registered names are exactly the earlier names plus the names of the registered commands |
| Registration.AllPatternsHead | src/services/voice_commands.rs:342-350 | the first registered command's patterns come first in the pattern list |
| Registration.RegisterCommands | src/services/voice_commands.rs:338-359 | registering a list of commands one after the other stores each under its name and appends their patterns in order, changing nothing else |
| Registration.RegisterAllCommands | src/services/voice_commands/comprehensive_registry.rs:36-86 | the registry registers basic, audio, recording, transcript, speech-to-text, system and specialised commands in that order and never fails |
| Registration.CreateComprehensiveEngineWithConfig | src/services/voice_commands/comprehensive_registry.rs:26-33 | a fresh engine with the given configuration, empty history and the default context, holding every registered command and its patterns |
| Registration.CreateComprehensiveEngine | src/services/voice_commands/comprehensive_registry.rs:16-23 | the same engine with the default configuration |
| Registration.ComprehensiveCommands | src/services/voice_commands/comprehensive_registry.rs:36-86 | the comprehensive engine holds 82 commands, each found under its own name |
| Registration.CategoriesPresent | src/services/voice_commands/comprehensive_registry.rs:616-626 | the comprehensive engine has audio, speech-to-text and system commands |
| Registration.EnableVadEndToEnd | src/services/voice_commands/comprehensive_registry.rs:634-651 | "enable vad" on the comprehensive engine succeeds, turns voice activity detection on, changes nothing else in the context and counts one more success |
| RegistryCommands.SettingsOpened | src/services/voice_commands/comprehensive_registry.rs:126-130 | opening the settings switches to configuration mode, answers "Navigated to settings" and changes nothing else |
| RegistryCommands.CoreSettingsReset | src/services/voice_commands/comprehensive_registry.rs:566-574 | the quick reset restores sensitivity 0.5, voice activity detection on and instant output off, and leaves every other field alone |
| RegistryCommands.SearchTermOf | src/services/voice_commands/comprehensive_registry.rs:305-314 | "search commands for W" echoes exactly W when W holds none of the removed lead-ins |
| RegistryCommands.ExplainedNameOf | src/services/voice_commands/comprehensive_registry.rs:337-346 | "explain command W" echoes exactly W when W holds none of the removed phrases |
| RegistryCommands.Execute | src/services/voice_commands/comprehensive_registry.rs:126-574 | every specialised command succeeds without data, and only the settings navigation and the quick reset write the context |
| RegistryCommands.SettingsIdempotent | src/services/voice_commands/comprehensive_registry.rs:126-130 | opening the settings twice leaves the same context as opening them once |
| RegistryCommands.QuickResetIdempotent | src/services/voice_commands/comprehensive_registry.rs:566-574 | the quick reset is idempotent, and a context already at its defaults is a fixed point of it |
| RegistryCommands.QuickResetKeepsRest | src/services/voice_commands/comprehensive_registry.rs:566-574 | after the quick reset, sample rate, model and mode are those of before, and the three reset fields hold their defaults |
| RegistryCommands.NamesDistinct | src/services/voice_commands/comprehensive_registry.rs:89-118 | seventeen specialised commands are registered, under pairwise distinct names |
| RegistryCommands.EveryCategoryListed | src/services/voice_commands/comprehensive_registry.rs:591-603 | the category list names every category |
| RegistryCommands.CommandCounts | src/services/voice_commands/comprehensive_registry.rs:591-604 | the count table has an entry for every category |
| RegistryCommands.TotalCommandCountAsWritten | src/services/voice_commands/comprehensive_registry.rs:607-609 | as written, the total of the table is 48, short of the 75 that the registry test at line 630 expects |
| SessionCommands.TranscriptResult | src/services/voice_commands/session_tracking_commands.rs:19-54 | the transcript report starts with its heading and carries 8 phrases, 2 speakers, 2 questions and confidence 0.942 |
| SessionCommands.SpeakerResult | src/services/voice_commands/session_tracking_commands.rs:98-165 | the speaker report starts with its heading and carries 2 speakers, 75 seconds of speaking and "Speaker_1" as the most active |
| SessionCommands.KeywordLines | src/services/voice_commands/session_tracking_commands.rs:226-229 | the keyword lines start with the first number, the first keyword and its count |
| SessionCommands.KeywordsResult | src/services/voice_commands/session_tracking_commands.rs:209-253 | the keyword report succeeds and carries the number of keywords and the first keyword with its count |
| SessionCommands.KeywordsRanked | src/services/voice_commands/session_tracking_commands.rs:213-224 | the reported keyword list has ten entries in non-increasing order of count, so the first is the most frequent |
| SessionCommands.SummaryResult | src/services/voice_commands/session_tracking_commands.rs:297-341 | the summary reply is the fixed summary with 156 words, sentiment 0.78 and confidence 0.935 |
| SessionCommands.ExportFormat | src/services/voice_commands/session_tracking_commands.rs:389-399 | the format is JSON exactly when the text contains "json", CSV when it contains "csv" but not "json", SRT only when none of json, csv, txt, text occurs and "srt" does, TXT otherwise |
| SessionCommands.ExportFileName | src/services/voice_commands/session_tracking_commands.rs:401-405 | the file name is "session_transcript_", the id, "_", the timestamp, and the lowercased format as extension |
| SessionCommands.ExportResult | src/services/voice_commands/session_tracking_commands.rs:385-433 | the export reply names the format and carries the file name, the format, 8 phrases and 156 words |
| SessionCommands.Report | src/services/voice_commands/session_tracking_commands.rs:19-433 | every session command reports success with an object payload |
| SessionCommands.Execute | src/services/voice_commands/session_tracking_commands.rs:19-433 | every session command succeeds with a payload and leaves the context unchanged |
| SessionCommands.TranscriptHeading | src/services/voice_commands/session_tracking_commands.rs:513-530 | the transcript report contains "Current Session Transcript" |
| SessionCommands.SpeakerHeading | src/services/voice_commands/session_tracking_commands.rs:534-551 | the speaker report contains "Speaker Analysis" |
| SessionCommands.JsonRequested | src/services/voice_commands/session_tracking_commands.rs:389-390 | "export transcript as json" asks for JSON |
| SessionCommands.JsonMessage | src/services/voice_commands/session_tracking_commands.rs:407-411 | an export in JSON says "Format: JSON" |
| SessionCommands.JsonExport | src/services/voice_commands/session_tracking_commands.rs:555-572 | "export transcript as json" says "Format: JSON" and writes a ".json" file name |
| SessionCommands.DefaultFormat | src/services/voice_commands/session_tracking_commands.rs:389-399 | text naming no format exports as TXT into a ".txt" file |
| SessionCommands.NamesDistinct | src/services/voice_commands/session_tracking_commands.rs:488-506 | the five session commands have pairwise distinct names |
| SessionTracker.DefaultTrackerConfig | src/services/session_transcript_tracker.rs:228-239 | the default tracker: 500 ms phrases, a 2000 ms silence gap, speaker sensitivity 0.7, keywords, sentiment and real-time processing on |
| SessionTracker.ClassifyPrecedence | src/services/session_transcript_tracker.rs:659-673 | a question mark always makes a question, an exclamation mark an exclamation unless the text is a question, and a command needs neither |
| SessionTracker.SilenceIffBlank | src/services/session_transcript_tracker.rs:659-673 | with the standard indicators a phrase is silence exactly when it is blank |
| SessionTracker.ClassifyExamples | src/services/session_transcript_tracker.rs:757-763 | the test's question, command, exclamation and plain speech are classified as it expects |
| SessionTracker.QualifyingSpec | src/services/session_transcript_tracker.rs:632-637 | the keyword filter keeps the long non-stop words in their order and drops the others |
| SessionTracker.KeywordsShape | src/services/session_transcript_tracker.rs:631-646 | at most the limit of lower-cased words of the text, in order, each long enough and not a stop word |
| SessionTracker.BumpWords | src/services/session_transcript_tracker.rs:640-642 | the loop counts every qualifying word |
| SessionTracker.KeywordExtractor.constructor | src/services/session_transcript_tracker.rs:617-629 | the standard stop words, no counts, words of at least 3 characters and at most 5 keywords per phrase |
| SessionTracker.KeywordExtractor.ExtractKeywords | src/services/session_transcript_tracker.rs:631-646 | every qualifying word is counted and the first five are returned |
| SessionTracker.FrequencyAfterExtraction | src/services/session_transcript_tracker.rs:631-646 | each word's frequency grows by its number of qualifying occurrences |
| SessionTracker.KeywordExample | src/services/session_transcript_tracker.rs:766-773 | the test sentence yields meeting, discussion, about, project and management |
| SessionTracker.QualifyingExample | src/services/session_transcript_tracker.rs:632-637 | filtering nine words of which two are stop words keeps the other seven in order |
| SessionTracker.SpeakerDetector.constructor | src/services/session_transcript_tracker.rs:597-604 | no current speaker and threshold 0.7 |
| SessionTracker.SpeakerDetector.DetectSpeaker | src/services/session_transcript_tracker.rs:606-613 | the first call sets the first speaker, and every call returns the current one |
| SessionTracker.CountInDisjoint | src/services/session_transcript_tracker.rs:546-577 | two disjoint vocabularies together match at most every word once |
| SessionTracker.SentimentSpec | src/services/session_transcript_tracker.rs:546-577 | the three shares add up to one, the compound is their difference in [-1, 1], and blank text is neutral |
| SessionTracker.LowerWords | src/services/session_transcript_tracker.rs:447-450 | each word lower-cased |
| SessionTracker.QuestionsAndCommands | src/services/session_transcript_tracker.rs:500-501 | questions and commands together are at most all phrases |
| SessionTracker.SumConfidenceBounds | src/services/session_transcript_tracker.rs:505 | confidences in [0, 1] sum to at most the number of phrases |
| SessionTracker.SilencePanicsWhenAudioOutlastsSession | src/services/session_transcript_tracker.rs:510 | as written, ten seconds of phrases in a session of one second make the Duration subtraction panic |
| SessionTracker.SilencePercentageSpec | src/services/session_transcript_tracker.rs:508-511 | the saturating share is a percentage and agrees with the source wherever the source does not panic |
| SessionTracker.StatisticsSpec | src/services/session_transcript_tracker.rs:493-512 | the statistics count phrases, words, speaking time, questions and commands; averages are means; the silence share is a percentage |
| SessionTracker.StatisticsIdempotent | src/services/session_transcript_tracker.rs:493-512 | recomputing the statistics of unchanged phrases changes nothing |
| SessionTracker.StatisticsForget | src/services/session_transcript_tracker.rs:503-511 | in a session shorter than a second the statistics depend only on the phrases and the fields never recomputed |
| SessionTracker.RunningMeanStep | src/services/session_transcript_tracker.rs:437-444 | updating a mean of count values with one more gives the mean of them all |
| SessionTracker.ProfileStepClosed | src/services/session_transcript_tracker.rs:420-456 | updating the profile phrase by phrase gives the closed form: count, speaking time, mean confidence and length, word counts and questions |
| SessionTracker.UpdateSpeakerProfile | src/services/session_transcript_tracker.rs:420-456 | the speaker's profile is created or updated by the phrase |
| SessionTracker.BumpLowered | src/services/session_transcript_tracker.rs:447-450 | the loop counts each lower-cased word of the phrase |
| SessionTracker.NewSessionValid | src/services/session_transcript_tracker.rs:258-290 | a new session is valid and empty |
| SessionTracker.PhraseKeywordsSnoc | src/services/session_transcript_tracker.rs:293-373 | one more phrase adds its keywords |
| SessionTracker.WithPhraseValid | src/services/session_transcript_tracker.rs:293-373 | appending a phrase of the session from the first speaker keeps the session valid: one more phrase, its keywords counted, profile and statistics up to date |
| SessionTracker.EndedAsWrittenSpec | src/services/session_transcript_tracker.rs:376-407 | as written, ending panics exactly when the audio outlasts a session of at least a second; otherwise it is the corrected ending |
| SessionTracker.EndedSpec | src/services/session_transcript_tracker.rs:376-407 | the final statistics of a valid session count its phrases, words, questions, commands and its speaker, and the silence share is a percentage |
| SessionTracker.SessionTranscriptTracker.constructor | src/services/session_transcript_tracker.rs:244-255 | no session and no statistics |
| SessionTracker.SessionTranscriptTracker.GetCurrentSession | src/services/session_transcript_tracker.rs:410-412 | the current session |
| SessionTracker.SessionTranscriptTracker.GetSessionStatistics | src/services/session_transcript_tracker.rs:415-417 | the recorded statistics of an ended session, present exactly when it was recorded |
| SessionTracker.SessionTranscriptTracker.EndCurrentSession | src/services/session_transcript_tracker.rs:376-407 | nothing without a session; otherwise it ends now, its statistics are recorded, or the ending panics as written |
| SessionTracker.SessionTranscriptTracker.StartSession | src/services/session_transcript_tracker.rs:258-290 | an active session is ended first; then the new empty session is current |
| SessionTracker.SessionTranscriptTracker.AddPhrase | src/services/session_transcript_tracker.rs:293-373 | without a session an error and nothing changes; otherwise the built phrase is appended |
| SessionTracker.SessionTranscriptTracker.BuildPhrase | src/services/session_transcript_tracker.rs:304-352 | the phrase is classified, its keywords extracted, its speaker detected and its sentiment scored |
| SessionTracker.AppendPhrase | src/services/session_transcript_tracker.rs:319-362 | keywords counted, phrase appended, speaker and statistics updated |
| SessionTracker.TrackerCreation | src/services/session_transcript_tracker.rs:741-745 | a new tracker has no current session |
| SessionTracker.SessionStart | src/services/session_transcript_tracker.rs:748-754 | starting a session succeeds with an empty current session |
| SessionTracker.QuestionSession | src/services/session_transcript_tracker.rs:293-407 | one question in a fresh session, ended a minute later, records one phrase, one question and one speaker |
| SessionTracker.AudioOutlastsSession | src/services/session_transcript_tracker.rs:376-407 | a ten-second phrase in a one-second session panics as written, while the corrected statistics report 0 % silence |
| SttCommands.ModelSwitched | src/services/voice_commands/stt_commands.rs:16-37 | the model is switched exactly when the captured, lowercased name is one of tiny, base, small, medium, large; the reply names it; otherwise the context is unchanged and the parse or invalid-model error is returned |
| SttCommands.LanguageCode | src/services/voice_commands/stt_commands.rs:88-98 | a known name maps to its two-letter code, "auto" to itself and any two-character text to itself; nothing else has a code |
| SttCommands.LanguageSetWith | src/services/voice_commands/stt_commands.rs:82-114 | no capture gives "Could not parse language"; a capture without a code gives the invalid-language error; otherwise "auto" clears the language, a code sets it, and the reply names it; errors leave the context unchanged |
| SttCommands.LanguageSetAsWritten | src/services/voice_commands/stt_commands.rs:82-114 | the handler with the expression as written, trying `[a-z]{2}` first: any language it sets is two letters long |
| SttCommands.LanguageAsWrittenNeverAuto | src/services/voice_commands/stt_commands.rs:82 | with `[a-z]{2}` tried first, every capture is two lowercase letters, so "auto" and the language names are never captured |
| SttCommands.CodeFirstCapture | src/services/voice_commands/stt_commands.rs:82 | an alternation that tries a two-letter class before lowercase literals only ever captures two lowercase letters |
| SttCommands.CodeLastCapture | src/services/voice_commands/stt_commands.rs:82 | with the literals tried first, a capture is one of the literals or two lowercase letters |
| SttCommands.LanguageNamesShape | src/services/voice_commands/stt_commands.rs:82-93 | every language name is lowercase, at least four letters long, and has a code |
| SttCommands.LanguageSet | src/services/voice_commands/stt_commands.rs:82-114 | the corrected handler, names tried first, succeeds exactly when something is captured, and then leaves the language unset (auto) or two letters long |
| SttCommands.LanguageCaptureKnown | src/services/voice_commands/stt_commands.rs:82-98 | whatever the corrected expression captures is lowercase and has a code |
| SttCommands.LanguageSpanishCaptureAsWritten | src/services/voice_commands/stt_commands.rs:82-83 | as written, the expression captures "sp" from "language spanish" |
| SttCommands.LanguageSpanishAsWritten | src/services/voice_commands/stt_commands.rs:82-114 | as written, "language spanish" sets the language to "sp" |
| SttCommands.LanguageSpanishCapture | src/services/voice_commands/stt_commands.rs:82-83 | with the names tried first, the capture from "language spanish" is "spanish" |
| SttCommands.LanguageSpanish | src/services/voice_commands/stt_commands.rs:82-114 | with the names tried first, "language spanish" sets exactly the language "es" |
| SttCommands.SpanishCode | src/services/voice_commands/stt_commands.rs:90 | "spanish" maps to "es" |
| SttCommands.RequestedThreshold | src/services/voice_commands/stt_commands.rs:252-256 | a threshold is read only from a capture, and it is never negative |
| SttCommands.ThresholdSet | src/services/voice_commands/stt_commands.rs:252-273 | the threshold is set exactly when a value in [0, 1] is read, and the reply shows it to two decimals; otherwise the context is unchanged with the parse or range error |
| SttCommands.WithInstantOutput | src/services/voice_commands/stt_commands.rs:362-414 | enabling or disabling instant output sets exactly the flag and replies with the paste or clipboard message |
| SttCommands.SpeedAdjusted | src/services/voice_commands/stt_commands.rs:458-468 | the context is never written; "faster"/"speed up" wins over "slower"/"slow down", and neither gives "Specify 'faster' or 'slower'" |
| SttCommands.SttSettings | src/services/voice_commands/stt_commands.rs:514-530 | the report starts with "STT Settings:" and ends with the processing-queue size |
| SttCommands.Execute | src/services/voice_commands/stt_commands.rs:16-577 | only the model, language, threshold and speed commands fail, and a failure leaves the context unchanged; only those writing model, language, threshold or instant output change it; mode and audio state are never touched |
| SttCommands.DefaultSttSettingsValid | src/services/voice_commands.rs:735-746 | the default speech-to-text state (model "base", no language, threshold 0.6) is valid |
| SttCommands.ExecuteKeepsSttSettingsValid | src/services/voice_commands/stt_commands.rs:16-577 | every speech-to-text command keeps the model supported, the language unset or two letters long and the threshold in [0, 1] |
| SttCommands.InstantOutputIdempotent | src/services/voice_commands/stt_commands.rs:362-414 | enabling (or disabling) instant output twice is the same as once |
| SttCommands.NamesDistinct | src/services/voice_commands/stt_commands.rs:617-631 | the registered speech-to-text commands have pairwise distinct names |
| SttCommands.ModelLargeCapture | src/services/voice_commands/stt_commands.rs:17 | the model expression captures "large" from "switch to large model" |
| SttCommands.ModelLarge | src/services/voice_commands/stt_commands.rs:16-37 | "switch to large model" sets exactly the model "large" |
| SttService.ModelEntry | src/services/stt.rs:230-239 | the entry for a size is named whisper-<size>, lists the supported languages and is not downloaded |
| SttService.GetModels | src/services/stt.rs:226-242 | one entry per supported size, in the same order |
| SttService.SttServiceState.constructor | src/services/stt.rs:181-193 | a service with the default configuration, model "base" and backend "local" |
| SttService.SttServiceState.SelectModel | src/services/stt.rs:245-252 | a size is accepted and remembered exactly when it is supported; otherwise model not found and nothing changes |
| SttService.SttServiceState.ApplyConfig | src/services/stt.rs:255-273 | a configuration is accepted exactly when its model is supported, and then backend, model and configuration are replaced; an unsupported language is only warned about |
| SttService.SttServiceState.Transcribe | src/services/stt.rs:196-223 | without the local backend compiled in, "local" reports the feature disabled and any other backend is unsupported |
| SttService.SelectionScenario | src/services/stt.rs:181-252 | a new service selects "base"; "huge" fails and keeps "base"; "small" succeeds |
| SuggestionEngine.Recorded | src/services/voice_commands/suggestion_engine.rs:720-723 | one more use: the same command, one more in the total and the time appended to the recent uses |
| SuggestionEngine.RecordedRateBounded | src/services/voice_commands/suggestion_engine.rs:725-729 | the updated success rate stays in [0, 1] |
| SuggestionEngine.ReplayStatistics | src/services/voice_commands/suggestion_engine.rs:720-730 | after a run of uses the pattern holds their number, their times in order and exactly the fraction that succeeded |
| SuggestionEngine.MeanStep | src/services/voice_commands/suggestion_engine.rs:725-729 | one more use moves the success rate of n uses to that of n + 1 uses |
| SuggestionEngine.UsesOf | src/services/voice_commands/suggestion_engine.rs:737-739 | the use count of every command that has a pattern |
| SuggestionEngine.UserBehaviorAnalyzer.constructor | src/services/voice_commands/suggestion_engine.rs:710-718 | an analyzer with no usage patterns and no time preferences |
| SuggestionEngine.UserBehaviorAnalyzer.RecordCommandUsage | src/services/voice_commands/suggestion_engine.rs:720-730 | one more use of the command is recorded and nothing else changes |
| SuggestionEngine.UserBehaviorAnalyzer.FrequentCommands | src/services/voice_commands/suggestion_engine.rs:736-743 | at most limit commands by descending use, each with its use count |
| SuggestionEngine.ContextSuggestions | src/services/voice_commands/suggestion_engine.rs:431-463 | exactly normal, narration and configuration mode get one contextual suggestion, with confidence at least 0.7 |
| SuggestionEngine.FrequencyConfidence | src/services/voice_commands/suggestion_engine.rs:474 | the confidence of a frequent command is its count over a hundred, capped at 0.8 |
| SuggestionEngine.FrequencySuggestions | src/services/voice_commands/suggestion_engine.rs:465-480 | one suggestion per frequent command, in order, at its frequency confidence |
| SuggestionEngine.GoalCommands | src/services/voice_commands/suggestion_engine.rs:486-493 | one suggestion per next likely command of a goal, at 0.8 of the goal's confidence |
| SuggestionEngine.TimeCommands | src/services/voice_commands/suggestion_engine.rs:522-529 | one suggestion per command at 0.6 |
| SuggestionEngine.TimeSuggestions | src/services/voice_commands/suggestion_engine.rs:517-533 | at most the first two commands preferred at the hour, at 0.6, and none for an hour without preferences |
| SuggestionEngine.Rank | src/services/voice_commands/suggestion_engine.rs:840-844 | the ranking is a permutation sorted by descending confidence |
| SuggestionEngine.CategoryCount | src/services/voice_commands/suggestion_engine.rs:548 | a category count never exceeds the number of suggestions |
| SuggestionEngine.Diverse | src/services/voice_commands/suggestion_engine.rs:544-553 | the per-category filter without its early stop keeps at most the input |
| SuggestionEngine.DiverseCounts | src/services/voice_commands/suggestion_engine.rs:548-552 | exactly the first two suggestions of each category are admitted |
| SuggestionEngine.DiverseSubseq | src/services/voice_commands/suggestion_engine.rs:544-553 | the admitted suggestions keep their input order |
| SuggestionEngine.DiversePrefix | src/services/voice_commands/suggestion_engine.rs:544-556 | what is admitted from a prefix of the input begins what is admitted from all of it |
| SuggestionEngine.DiversityShape | src/services/voice_commands/suggestion_engine.rs:540-560 | the filter keeps at most two per category, in order, and stops at max suggestions (one when max is 0) |
| SuggestionEngine.Admit | src/services/voice_commands/suggestion_engine.rs:548-552 | a suggestion is admitted exactly when its category has fewer than two |
| SuggestionEngine.DiverseStep | src/services/voice_commands/suggestion_engine.rs:544-553 | one more suggestion is admitted exactly when its category has fewer than two so far |
| SuggestionEngine.DiversityCut | src/services/voice_commands/suggestion_engine.rs:554-556 | stopping once max suggestions are held gives the specified result |
| SuggestionEngine.DiversityWhole | src/services/voice_commands/suggestion_engine.rs:544-559 | looking at every suggestion without filling up gives the specified result |
| SuggestionEngine.CandidatesSystem | src/services/voice_commands/suggestion_engine.rs:299-320 | every candidate suggestion is in the System category |
| SuggestionEngine.FilteredSystemShape | src/services/voice_commands/suggestion_engine.rs:540-560 | filtering ranked System suggestions keeps at most two, still ranked |
| SuggestionEngine.GenerateShape | src/services/voice_commands/suggestion_engine.rs:299-327 | generation yields at most two suggestions, ranked, drawn in order from the ranked candidates, and some whenever there is a candidate |
| SuggestionEngine.PrefixSimilarity | src/services/voice_commands/suggestion_engine.rs:823-829 | the similarity is undefined exactly when both strings are empty |
| SuggestionEngine.PrefixSimilarityBounds | src/services/voice_commands/suggestion_engine.rs:823-829 | the similarity lies in [0, 1], is 1 only for the whole command and positive only for a non-empty prefix |
| SuggestionEngine.EnabSimilarity | src/services/voice_commands/suggestion_engine.rs:904-909 | "enab" covers 0.4 of "enable_vad" |
| SuggestionEngine.CategoryEntries | src/services/voice_commands/suggestion_engine.rs:413-423 | one category suggestion per relevant command, at the constant relevance |
| SuggestionEngine.CategoryEntriesRanked | src/services/voice_commands/suggestion_engine.rs:425-426 | sorting equal-relevance entries keeps their order and the result is cut at max |
| SuggestionEngine.CategoryEntriesFor | src/services/voice_commands/suggestion_engine.rs:413-423 | the loop builds exactly the category entries |
| SuggestionEngine.CommandSuggestionEngine.constructor | src/services/voice_commands/suggestion_engine.rs:287-296 | a fresh engine with an empty analyzer, no goals, no feedback and the default configuration |
| SuggestionEngine.CommandSuggestionEngine.BehaviorSuggestions | src/services/voice_commands/suggestion_engine.rs:465-480 | the suggestions for the three most used commands |
| SuggestionEngine.CommandSuggestionEngine.GoalOrientedSuggestions | src/services/voice_commands/suggestion_engine.rs:482-497 | every next likely command of every goal |
| SuggestionEngine.CommandSuggestionEngine.TimeBasedSuggestions | src/services/voice_commands/suggestion_engine.rs:517-533 | the time suggestions for the given hour |
| SuggestionEngine.CommandSuggestionEngine.ApplyDiversityFilter | src/services/voice_commands/suggestion_engine.rs:540-560 | the loop with its early stop yields exactly the specified filter |
| SuggestionEngine.CommandSuggestionEngine.GenerateSuggestions | src/services/voice_commands/suggestion_engine.rs:299-327 | the suggestions equal their specification, at most two and ranked |
| SuggestionEngine.CommandSuggestionEngine.GetCategorySuggestions | src/services/voice_commands/suggestion_engine.rs:407-428 | sorted, at most max, and empty because no command is relevant to any category |
| SuggestionEngine.CommandSuggestionEngine.LearnFromFeedback | src/services/voice_commands/suggestion_engine.rs:376-391 | the feedback is stored under its id |
| SuggestionEngine.CommandSuggestionEngine.RecordCommandExecution | src/services/voice_commands/suggestion_engine.rs:394-404 | the use is recorded in the analyzer and its time preferences stay |
| SuggestionEngine.CreationScenario | src/services/voice_commands/suggestion_engine.rs:884-888 | a new engine allows five suggestions and learns |
| SuggestionEngine.BehaviorAnalyzerScenario | src/services/voice_commands/suggestion_engine.rs:891-901 | one recorded use gives one use and one frequent command |
| SuggestionEngine.GenerationScenario | src/services/voice_commands/suggestion_engine.rs:912-919 | a new engine in normal mode suggests starting narration |
| SystemCommands.BackupName | src/services/voice_commands/system_commands.rs:148-156 | the backup name is "settings_backup_" followed by exactly the timestamp |
| SystemCommands.LogFileName | src/services/voice_commands/system_commands.rs:253-261 | the log file name is "stt_clippy_logs_", the timestamp and ".txt" |
| SystemCommands.VersionText | src/services/voice_commands/system_commands.rs:344-359 | the version report starts with its title and ends with the Rust version line |
| SystemCommands.LogLevelSet | src/services/voice_commands/system_commands.rs:506-519 | the context is never written; the command succeeds exactly when one of debug, info, warn, error is captured and echoes it; otherwise it lists the valid levels |
| SystemCommands.DefaultsRestored | src/services/voice_commands/system_commands.rs:561-569 | the reset puts mode, audio and speech-to-text state back to their defaults and keeps recent commands, session data and environment |
| SystemCommands.Execute | src/services/voice_commands/system_commands.rs:15-569 | only the reset writes the context; only the log-level command can fail; restart, reload and metrics always succeed without data |
| SystemCommands.ResetMatchesDefault | src/services/voice_commands/system_commands.rs:561-569 | after a reset the context is the default context except for the recent commands and session data it keeps |
| SystemCommands.ResetIdempotent | src/services/voice_commands/system_commands.rs:561-569 | resetting twice equals resetting once |
| SystemCommands.MetricsMentionsPerformance | src/services/voice_commands/system_commands.rs:632-646 | the metrics command succeeds with a message containing "Performance Metrics" |
| SystemCommands.NamesDistinct | src/services/voice_commands/system_commands.rs:610-625 | twelve system commands are registered, with pairwise distinct names |
| SystemCommands.LogLevelDebugCapture | src/services/voice_commands/system_commands.rs:507 | the log-level expression captures "debug" from "set log level to debug" |
| SystemCommands.LogLevelDebug | src/services/voice_commands/system_commands.rs:506-519 | "set log level to debug" leaves the context alone and replies "Log level set to debug" with the level as data |
| TestRecorder.LastNumber | src/bin/test_recorder.rs:847-851 | the last word read as a usize is below the usize limit |
| TestRecorder.ParseTestCommand | src/bin/test_recorder.rs:838-885 | each command is returned only when the lower-cased text holds its phrase and no phrase checked before it; the numbered commands take the last word's number |
| TestRecorder.ParseIgnoresCase | src/bin/test_recorder.rs:839 | parsing ignores case |
| TestRecorder.ParsesAsStart | src/bin/test_recorder.rs:845-852 | a lower-case text holding "start test recording" and no earlier phrase starts recording, numbered by its last word |
| TestRecorder.StartRecordingNumbered | src/bin/test_recorder.rs:845-852 | "start test recording <n>" starts recording phrase n |
| TestRecorder.StartNextWins | src/bin/test_recorder.rs:841-842 | "start test recording next <n>" is StartNext, since that phrase is checked first |
| TestRecorder.ParsesAsSkip | src/bin/test_recorder.rs:867-873 | a lower-case text holding "skip to phrase" and no earlier phrase is decided by its last word |
| TestRecorder.SkipToNumbered | src/bin/test_recorder.rs:867-873 | "skip to phrase <n>" skips to phrase n |
| TestRecorder.SkipWithoutNumber | src/bin/test_recorder.rs:867-873 | "skip to phrase" without a number is no command at all |
| TestRecorder.RecordingState.constructor | src/bin/test_recorder.rs:707-725 | not recording, no phrase, empty buffers, no times, no recording and no decision |
| TestRecorder.RecordingState.StartRecording | src/bin/test_recorder.rs:727-739 | waiting for the phrase with empty buffers and no times yet, ignoring commands for two seconds |
| TestRecorder.RecordingState.StopRecording | src/bin/test_recorder.rs:741-752 | flags, buffers, times and the cooldown are cleared; the phrase, its number and the pending decision are kept |
| TestRecorder.RecordingState.SetLastRecording | src/bin/test_recorder.rs:754-758 | the new recording is recorded and not validated yet |
| TestRecorder.RecordingState.ClearSession | src/bin/test_recorder.rs:760-772 | the phrase, the last recording and any decision are forgotten; the audio buffer is kept |
| TestRecorder.RecordingState.StartSegment | src/bin/test_recorder.rs:774-778 | only the first call sets the segment start |
| TestRecorder.RecordingState.AddAudioSamples | src/bin/test_recorder.rs:780-782 | the samples are appended to the audio buffer |
| TestRecorder.RecordingState.AddDetectionSamples | src/bin/test_recorder.rs:784-793 | the samples are appended and the oldest beyond 20 seconds dropped |
| TestRecorder.RecordingState.StartDecisionFlow | src/bin/test_recorder.rs:805-810 | waiting for accept or retry on this recording, ignoring commands for three seconds |
| TestRecorder.RecordingState.CompleteDecisionFlow | src/bin/test_recorder.rs:812-816 | the decision flow and the cooldown are cleared |
| TestRecorder.DetectionChunks | src/bin/test_recorder.rs:784-793 | feeding the detection buffer in two chunks keeps the same samples as feeding them at once |
| TestRecorder.RecorderScenario | src/bin/test_recorder.rs:727-816 | a start silences commands for exactly two seconds, stopping keeps the phrase and its number, and the decision holds the recording until it completes |
| TestRecorder.DetectionScenario | src/bin/test_recorder.rs:784-793 | the detection buffer keeps the newest 320000 samples |
| TestRecorder.EditDistanceTable | src/bin/test_recorder.rs:1284-1312 | the table computes the edit distance |
| TestRecorder.WordsAreSimilar | src/bin/test_recorder.rs:1264-1281 | two words are similar exactly when both are non-empty and the edits are at most 30 % of the longer length; the length guard never changes the answer |
| TestRecorder.WordsAreSimilarSymmetric | src/bin/test_recorder.rs:1264-1281 | similarity does not depend on the order of the words |
| TestRecorder.WordsAreSimilarReflexive | src/bin/test_recorder.rs:1264-1281 | a non-empty word is similar to itself |
| TestRecorder.SimilarityExamples | src/bin/test_recorder.rs:1264-1281 | one dropped letter in a nine-letter word is similar; one changed letter in three is not |
| TestRecorder.StripPunctuation | src/bin/test_recorder.rs:1252-1253 | the six punctuation characters are removed |
| TestRecorder.CleanText | src/bin/test_recorder.rs:1252-1257 | no punctuation remains and neither end is a space |
| TestRecorder.NormalizeForStt | src/bin/test_recorder.rs:1208-1261 | the normalised text has no punctuation and no space at either end |
| TestRecorder.ApplySubstitutions | src/bin/test_recorder.rs:1247-1249 | the loop replaces each pair in the listed order |
| TestRecorder.NormalizeForSttComparison | src/bin/test_recorder.rs:1208-1261 | the normalisation as specified |
| TestRecorder.CountMatches | src/bin/test_recorder.rs:1461-1465 | the loop counts the window's words that equal or resemble the target word at the same place |
| TestRecorder.FindMatchingWindow | src/bin/test_recorder.rs:1459-1471 | the windows are tried left to right, stopping at the first where at least 70 % of the words match |
| TestRecorder.PhraseDetectedInTranscription | src/bin/test_recorder.rs:1427-1474 | the direct checks, then the word windows, as specified |
| TestRecorder.DetectedIgnoringCase | src/bin/test_recorder.rs:1969 | "Enable VAD" is detected for "enable vad" |
| TestRecorder.DirectHit | src/bin/test_recorder.rs:1432-1434 | a direct hit is always detected |
| TestRecorder.DetectedAmongWords | src/bin/test_recorder.rs:1432-1434 | extra words around the target do not matter |
| TestRecorder.LongerTargetMissed | src/bin/test_recorder.rs:1454-1456 | without a direct hit a target longer than the transcription in words is never detected |
| TestRecorder.PadAudioToMinimumDuration | src/bin/test_recorder.rs:1877-1903 | a long recording is kept; otherwise a quarter of the missing samples go in front as silence and the rest after |
| TestRecorder.PadAudioWithPrePhraseEmphasis | src/bin/test_recorder.rs:1847-1874 | a long recording is kept; otherwise 60 % of the missing samples go in front as silence and the rest after |
| TestRecorder.PadLength | src/bin/test_recorder.rs:1847-1903 | padding never shortens, reaches the minimum, and leaves a long recording alone |
| TestRecorder.PadExample | src/bin/test_recorder.rs:2068-2083 | four samples padded to 1000: 249 zeros, the samples, then 747 zeros |
| TestingFramework.NewTestCase | src/services/voice_commands/testing_framework.rs:52-59 | a new case keeps its name, description and category and is expected to succeed |
| TestingFramework.Execute | src/services/voice_commands/testing_framework.rs:61-95 | execution succeeds, passed, exactly for the known case names, and otherwise fails with "Unknown test case" |
| TestingFramework.CaseResult | src/services/voice_commands/testing_framework.rs:259-283 | the recorded result names the case and is passed for a known name, an error otherwise |
| TestingFramework.BasicSuiteShape | src/services/voice_commands/testing_framework.rs:314-359 | the basic suite has six cases, all with names the execution knows |
| TestingFramework.AllKnownCount | src/services/voice_commands/testing_framework.rs:61-95 | when every name is known, every case counts as known |
| TestingFramework.ResultsOf | src/services/voice_commands/testing_framework.rs:255-285 | one result per case, in order |
| TestingFramework.CountStatus | src/services/voice_commands/testing_framework.rs:261-266 | a tally never exceeds the number of results |
| TestingFramework.CountStatusAppend | src/services/voice_commands/testing_framework.rs:261-267 | tallies add up over concatenated results |
| TestingFramework.ResultsOfAppend | src/services/voice_commands/testing_framework.rs:255-285 | the results of concatenated case lists concatenate |
| TestingFramework.RunSuiteCases | src/services/voice_commands/testing_framework.rs:251-285 | one suite's turn appends its results and keeps the three tallies in step with them |
| TestingFramework.SuiteAdded | src/services/voice_commands/testing_framework.rs:244-289 | appending one suite's results keeps results and tallies in step |
| TestingFramework.TalliesPartition | src/services/voice_commands/testing_framework.rs:261-270 | passed, failed and skipped add up to the number of results |
| TestingFramework.ResultsNeverSkipped | src/services/voice_commands/testing_framework.rs:259-283 | a run never skips, passes exactly the known cases and fails the rest |
| TestingFramework.RunCases | src/services/voice_commands/testing_framework.rs:255-285 | the inner loop yields one result per case and its tallies |
| TestingFramework.VoiceCommandTestFramework.constructor | src/services/voice_commands/testing_framework.rs:221-226 | a framework with no suites and the given configuration |
| TestingFramework.VoiceCommandTestFramework.RegisterTestSuite | src/services/voice_commands/testing_framework.rs:229-232 | the suite is stored under its name, replacing any namesake |
| TestingFramework.VoiceCommandTestFramework.SuitesIn | src/services/voice_commands/testing_framework.rs:244 | the suites in the map's iteration order |
| TestingFramework.VoiceCommandTestFramework.RunAllTests | src/services/voice_commands/testing_framework.rs:235-303 | every case of every suite yields one result, the total is their number and the tallies count them |
| TestingFramework.CreateTestFramework | src/services/voice_commands/testing_framework.rs:387-396 | a fresh framework with the default configuration holding the basic suite |
| TestingFramework.ComprehensiveRunScenario | src/services/voice_commands/testing_framework.rs:399-402 | the created framework holds one suite and running it passes all six cases |
| TestingFramework.BasicRunCounts | src/services/voice_commands/testing_framework.rs:415-419 | running the basic suite alone gives six results, all passed |
| TranscriptCommands.SearchQuery | src/services/voice_commands/transcript_management_commands.rs:17-21 | a text starting "search transcripts" searches for the trimmed rest; any other text for "recent transcripts" |
| TranscriptCommands.SearchResults | src/services/voice_commands/transcript_management_commands.rs:24-36 | an empty query or "recent transcripts" lists the three recent transcripts; any other query gives three lines headed "Found 3 transcripts matching '<query>':" |
| TranscriptCommands.SearchOutcome | src/services/voice_commands/transcript_management_commands.rs:15-47 | the search always succeeds, its message is the heading then the joined result lines, and its data is those lines |
| TranscriptCommands.BareSearchListsRecent | src/services/voice_commands/transcript_management_commands.rs:17-29 | "search transcripts" followed only by spaces lists the recent transcripts |
| TranscriptCommands.ExportCriteria | src/services/voice_commands/transcript_management_commands.rs:153-161 | the first of today, week and month that the text mentions picks the criteria, in that order; otherwise all transcripts |
| TranscriptCommands.ExportOutcome | src/services/voice_commands/transcript_management_commands.rs:151-172 | the export succeeds and names the file transcripts_export_<stamp>.txt in both message and data |
| TranscriptCommands.TagAsWritten | src/services/voice_commands/transcript_management_commands.rs:379-383 | as written: the trimmed piece after the last occurrence of the letters "as" anywhere, or "general"; such a tag never contains "as" |
| TranscriptCommands.Tag | src/services/voice_commands/transcript_management_commands.rs:379-383 | as intended: the trimmed text after the last word " as ", or "general" |
| TranscriptCommands.TagOfWord | src/services/voice_commands/transcript_management_commands.rs:379-383 | "tag transcript as W" tags with the word W whatever its letters |
| TranscriptCommands.TagClassMissed | src/services/voice_commands/transcript_management_commands.rs:379-380 | as written, "tag transcript as class" cannot be tagged "class" |
| TranscriptCommands.TagClass | src/services/voice_commands/transcript_management_commands.rs:379-380 | the intended reading tags "tag transcript as class" with "class" |
| TranscriptCommands.TagClassAsWritten | src/services/voice_commands/transcript_management_commands.rs:379-380 | the two readings disagree on "tag transcript as class" |
| TranscriptCommands.TagOutcome | src/services/voice_commands/transcript_management_commands.rs:377-392 | the tag command succeeds and reports the as-written tag in its message and data |
| TranscriptCommands.Phrase | src/services/voice_commands/transcript_management_commands.rs:437-441 | the trimmed text after the last "containing", which itself contains no "containing", or "unknown phrase" |
| TranscriptCommands.PhraseResults | src/services/voice_commands/transcript_management_commands.rs:443-453 | exactly an empty phrase or "unknown phrase" gives "No search phrase specified"; otherwise five lines headed "Found 4 transcripts containing '<phrase>':" |
| TranscriptCommands.PhraseOutcome | src/services/voice_commands/transcript_management_commands.rs:435-464 | the phrase search succeeds, its message is the joined result lines and its data names the phrase |
| TranscriptCommands.PhraseOfWord | src/services/voice_commands/transcript_management_commands.rs:437-438 | "find transcripts containing W" searches for the word W |
| TranscriptCommands.WithTxt | src/services/voice_commands/transcript_management_commands.rs:705-709 | the name ends with ".txt", unchanged if it already did, otherwise with ".txt" appended |
| TranscriptCommands.StemAsWritten | src/services/voice_commands/transcript_management_commands.rs:702-704 | as written: the trimmed piece between the first and second occurrence of the letters "as", which never contains "as" |
| TranscriptCommands.FileNameAsWritten | src/services/voice_commands/transcript_management_commands.rs:701-715 | as written: the ".txt" name of that piece when the text contains "as", otherwise transcript_<stamp>.txt |
| TranscriptCommands.FileName | src/services/voice_commands/transcript_management_commands.rs:701-715 | as intended: the name after the first word " as " with ".txt" ensured, otherwise transcript_<stamp>.txt; always ends ".txt" |
| TranscriptCommands.FileNameOfWord | src/services/voice_commands/transcript_management_commands.rs:701-709 | "save transcript as W" exports to W with ".txt" added when it is missing |
| TranscriptCommands.FileNameDatabaseMissed | src/services/voice_commands/transcript_management_commands.rs:701-704 | as written, "save transcript as database" cannot export to database.txt |
| TranscriptCommands.FileNameDatabaseFixed | src/services/voice_commands/transcript_management_commands.rs:701-709 | the intended reading exports "save transcript as database" to database.txt |
| TranscriptCommands.FileNameDatabase | src/services/voice_commands/transcript_management_commands.rs:701-709 | the two readings disagree on "save transcript as database" |
| TranscriptCommands.FileNameOutcome | src/services/voice_commands/transcript_management_commands.rs:699-724 | the text export succeeds and reports the as-written file name in its message and data |
| TranscriptCommands.Execute | src/services/voice_commands/transcript_management_commands.rs:15-724 | every transcript command succeeds, carries data and leaves the system context unchanged |
| TranscriptCommands.NamesDistinct | src/services/voice_commands/transcript_management_commands.rs:764-810 | twelve transcript commands are registered, under pairwise distinct names |
| TranscriptSearch.KeepAlnum | src/services/transcription_search.rs:429-431 | a word keeps only its alphanumeric characters, in order |
| TranscriptSearch.CleanWords | src/services/transcription_search.rs:428-433 | each word is reduced to its alphanumeric characters and the words left empty are dropped |
| TranscriptSearch.TokenizeShape | src/services/transcription_search.rs:425-435 | every token is a non-empty run of lower-case letters and digits |
| TranscriptSearch.TokenizeJoin | src/services/transcription_search.rs:425-435 | tokens joined by single spaces tokenise back to themselves |
| TranscriptSearch.WindowsOf | src/services/transcription_search.rs:442-445 | every window of the given size over the tokens, left to right, and none when there are fewer tokens |
| TranscriptSearch.PhrasesMember | src/services/transcription_search.rs:437-449 | a phrase is listed exactly when it is a window of some size in the range |
| TranscriptSearch.PhrasesNone | src/services/transcription_search.rs:437-449 | with fewer than two tokens, or a maximum below two, there are no phrases |
| TranscriptSearch.ExtractPhrases | src/services/transcription_search.rs:437-449 | the phrases are every window of 2 to the maximum tokens, by size then position |
| TranscriptSearch.PhrasesOfWords | src/services/transcription_search.rs:441-446 | the outer loop lists the windows of every size in the range |
| TranscriptSearch.AppendWindows | src/services/transcription_search.rs:442-445 | the inner loop appends every window of one size |
| TranscriptSearch.Record | src/services/transcription_search.rs:302-316 | one occurrence creates the posting list and the document's entry when missing and adds the term |
| TranscriptSearch.OccurrencesSpec | src/services/transcription_search.rs:293-314 | the positions recorded for a term are exactly those holding it, each once and ascending |
| TranscriptSearch.IndexTerms | src/services/transcription_search.rs:290-346 | indexing records every qualifying term at its position, skipping short words and stop words |
| TranscriptSearch.IndexFresh | src/services/transcription_search.rs:290-321 | after indexing a new document a term lists it exactly when the term qualifies and occurs, with its positions and their count as frequency |
| TranscriptSearch.IndexedConsistent | src/services/transcription_search.rs:290-346 | indexing keeps every posting list consistent with its documents |
| TranscriptSearch.IndexedTotals | src/services/transcription_search.rs:313-316 | indexing keeps every total equal to the sum of its documents' frequencies |
| TranscriptSearch.RemoveTerms | src/services/transcription_search.rs:224-245 | the removal loops drop the document from every listed term and keep the index consistent |
| TranscriptSearch.RemovedGone | src/services/transcription_search.rs:224-245 | after removal no listed term mentions the document, empty lists are gone, other documents are kept and totals are left as they were |
| TranscriptSearch.AddId | src/services/transcription_search.rs:352-372 | filing an id under a key adds it to that key's set, creating it if missing |
| TranscriptSearch.RemoveId | src/services/transcription_search.rs:375-423 | the id leaves the set under the key and the key goes when the set empties |
| TranscriptSearch.AddIds | src/services/transcription_search.rs:350-353 | the tag loop files the id under every tag |
| TranscriptSearch.RemoveIds | src/services/transcription_search.rs:378-385 | the tag loop removes the id under every tag |
| TranscriptSearch.PercentByte | src/services/transcription_search.rs:462 | the percentage cast to u8 truncates toward zero and saturates at 0 and 255 |
| TranscriptSearch.ConfidenceRangeBounds | src/services/transcription_search.rs:461-468 | for a confidence in [0, 1] the bucket starts at a multiple of ten, is ten wide and holds the percentage |
| TranscriptSearch.JaccardBounds | src/services/transcription_search.rs:830-843 | the Jaccard ratio lies in [0, 1], is 1 for equal non-empty sets and 0 for disjoint ones |
| TranscriptSearch.WordJaccardBounds | src/services/transcription_search.rs:830-843 | fuzzy similarity lies in [0, 1], is 1 for texts with the same token set and 0 without a common token |
| TranscriptSearch.TfIdfUnmatched | src/services/transcription_search.rs:773-794 | a document no query term lists scores 0 |
| TranscriptSearch.CollectDocs | src/services/transcription_search.rs:470-509 | the full-text candidates are the union of the query terms' documents |
| TranscriptSearch.TagSearchRestarts | src/services/transcription_search.rs:610-622 | tags naming documents 1, 2 and 3 yield {3} as written, where no document carries all three |
| TranscriptSearch.TagDocsSpec | src/services/transcription_search.rs:610-622 | the intended candidates are the documents carrying every known requested tag, when some tag is known |
| TranscriptSearch.TagFoldAsWritten | src/services/transcription_search.rs:613-621 | while the running intersection is non-empty the code agrees with the intended fold |
| TranscriptSearch.TagDocsAsWrittenAgrees | src/services/transcription_search.rs:610-622 | the as-written candidates are the intended ones whenever the intended answer is non-empty |
| TranscriptSearch.CollectTagDocs | src/services/transcription_search.rs:610-622 | the loop intersects each known tag's set, restarting from it while the running set is empty |
| TranscriptSearch.ApplyFilters | src/services/transcription_search.rs:639-685 | filtering keeps, in order, exactly the results that pass every criterion |
| TranscriptSearch.Squash | src/services/transcription_search.rs:687-721 | a key squeezed into (0, 1) that is at least 1/2 exactly when the number is not negative |
| TranscriptSearch.SquashMonotone | src/services/transcription_search.rs:687-721 | squeezing keeps the order both ways |
| TranscriptSearch.SortValueMeaning | src/services/transcription_search.rs:687-721 | sorted before means a higher score, newer, older, or more confident and longer, with a missing transcript placed as the comparison does |
| TranscriptSearch.ToMatches | src/services/transcription_search.rs:723-740 | conversion never lengthens the results |
| TranscriptSearch.ToMatchesFrom | src/services/transcription_search.rs:723-740 | each match comes from a result whose transcript is stored under its id |
| TranscriptSearch.ToMatchesSorted | src/services/transcription_search.rs:723-740 | conversion keeps the order of sorted results |
| TranscriptSearch.PipelineSpec | src/services/transcription_search.rs:187-217 | every match is a stored candidate that passes the filters, in the requested order and at most the limit; with no limit every passing stored candidate appears |
| TranscriptSearch.ConvertToMatches | src/services/transcription_search.rs:723-740 | the loop converts the results as specified |
| TranscriptSearch.ScoreOf | src/services/transcription_search.rs:470-637 | each candidate keeps its id and gets the score of its search type |
| TranscriptSearch.ScoreAll | src/services/transcription_search.rs:470-637 | every candidate is scored, in the order given |
| TranscriptSearch.SearchOutcomeSpec | src/services/transcription_search.rs:187-217 | a search lacking a needed query fails with its type's message; otherwise the matches are stored candidates that pass the filters, with their scores, in order and within the limit |
| TranscriptSearch.ScoreCandidates | src/services/transcription_search.rs:470-637 | the scoring loops score every candidate as specified |
| TranscriptSearch.ScanStorage | src/services/transcription_search.rs:545-608 | the regex and fuzzy scans keep exactly the stored transcripts that hit |
| TranscriptSearch.SearchIndexes | src/services/transcription_search.rs:187-217 | search collects, scores, filters, sorts, truncates and converts as specified |
| TranscriptSearch.TermsExactAdd | src/services/transcription_search.rs:157-184 | indexing a transcript not yet stored keeps the word and phrase indexes exact |
| TranscriptSearch.TermsExactRemove | src/services/transcription_search.rs:220-252 | removing a stored transcript under all its terms keeps the index exact |
| TranscriptSearch.EmptyExact | src/services/transcription_search.rs:141-154 | empty indexes describe an empty storage exactly |
| TranscriptSearch.TranscriptIndexer.constructor | src/services/transcription_search.rs:141-154 | every index empty, no documents |
| TranscriptSearch.TranscriptIndexer.IndexTranscript | src/services/transcription_search.rs:157-184 | the transcript is stored, indexed by words, phrases and metadata and counted; a new transcript keeps exact indexes exact |
| TranscriptSearch.TranscriptIndexer.Store | src/services/transcription_search.rs:161-176 | the transcript is stored and counted |
| TranscriptSearch.TranscriptIndexer.SetIndexes | src/services/transcription_search.rs:157-184 | the indexes are replaced |
| TranscriptSearch.TranscriptIndexer.RemoveTranscript | src/services/transcription_search.rs:220-252 | an unknown id changes nothing; otherwise the transcript leaves storage and every index and the count goes down by one, keeping exact indexes exact |
| TranscriptSearch.TranscriptIndexer.RebuildIndex | src/services/transcription_search.rs:260-286 | afterwards the storage is what it was, the count is its size and every index describes it exactly |
| TranscriptSearch.TranscriptIndexer.Search | src/services/transcription_search.rs:187-217 | the search over the indexer's state, as specified |
| TranscriptSearch.RemoveFromMetadata | src/services/transcription_search.rs:375-423 | the transcript leaves the entries of its tags, date, bucket, session and language |
| TranscriptSearch.IndexTermsOf | src/services/transcription_search.rs:167-175 | words or phrases are indexed when that index is on, nothing otherwise |
| TranscriptSearch.AddToIndexes | src/services/transcription_search.rs:157-184 | the transcript's words, phrases and metadata are indexed |
| TranscriptSearch.AddToMetadata | src/services/transcription_search.rs:348-373 | the transcript joins the entries of its tags, date, bucket, session and language |
| TranscriptSearch.AdditionKeepsExact | src/services/transcription_search.rs:157-184 | indexing a transcript not yet stored keeps exact indexes exact |
| TranscriptSearch.MetaAdditionKeepsExact | src/services/transcription_search.rs:348-373 | the metadata part of the same |
| TranscriptSearch.IndexAll | src/services/transcription_search.rs:275-281 | the rebuild loop stores exactly the old transcripts, counts each once and describes them exactly |
| TranscriptSearch.AddExactly | src/services/transcription_search.rs:279-281 | one step of the rebuild keeps exact indexes exact |
| TranscriptSearch.RemoveFromIndexes | src/services/transcription_search.rs:222-246 | the index part of removal |
| TranscriptSearch.RemovalKeepsExact | src/services/transcription_search.rs:220-252 | removing a stored transcript from exact indexes leaves indexes exact for the rest |
| TranscriptStorage.DefaultFileStorageConfig | src/services/transcript_storage.rs:565-572 | the default keeps 1000 transcripts per file, no compression, flushes every 300 s and rebuilds the index after 10000 |
| TranscriptStorage.FileNameInjective | src/services/transcript_storage.rs:229-246 | different counters give different file names |
| TranscriptStorage.NamesBelowCard | src/services/transcript_storage.rs:229-246 | there are as many candidate names below n as counters |
| TranscriptStorage.TakenBound | src/services/transcript_storage.rs:236-243 | when the first n candidates are all taken at least n names are taken, so the search ends |
| TranscriptStorage.NextNameFrom | src/services/transcript_storage.rs:236-243 | the first candidate from a counter on that is not taken |
| TranscriptStorage.NextName | src/services/transcript_storage.rs:229-246 | the picked name is not already indexed |
| TranscriptStorage.GetNextFileName | src/services/transcript_storage.rs:229-246 | counter 0 is the bare timestamp, higher counters append _counter, and the first name not in the metadata is returned |
| TranscriptStorage.Sizes | src/services/transcript_storage.rs:166-170 | the recorded sizes cover exactly the indexed files |
| TranscriptStorage.ScanFiles | src/services/transcript_storage.rs:166-180 | the loop sums the file sizes and finds the oldest creation and newest modification time |
| TranscriptStorage.CalculateStats | src/services/transcript_storage.rs:160-197 | the count is the located ids, the size the sum of file sizes, the times the extremes, and the average the count over the files |
| TranscriptStorage.VerifiedSpec | src/services/transcript_storage.rs:200-226 | after verification every indexed file is present, no location points into a missing file, and present files are unchanged |
| TranscriptStorage.Missing | src/services/transcript_storage.rs:203-208 | the missing files are exactly the indexed names that are not in the directory |
| TranscriptStorage.VerifyIndex | src/services/transcript_storage.rs:200-226 | verification as specified |
| TranscriptStorage.CollectMissing | src/services/transcript_storage.rs:203-208 | the first loop collects the missing files |
| TranscriptStorage.DropFiles | src/services/transcript_storage.rs:211-217 | the second loop drops each missing file's metadata and the locations in it |
| TranscriptStorage.FindId | src/services/transcript_storage.rs:355-357 | the lookup finds a transcript with the id in the file, or none when the file holds no such id |
| TranscriptStorage.FindAppended | src/services/transcript_storage.rs:302-357 | an entry appended to a file without its id is what a lookup of that id finds |
| TranscriptStorage.RemoveId | src/services/transcript_storage.rs:440 | retain removes every transcript with the id and keeps every other one |
| TranscriptStorage.FilterEntriesSpec | src/services/transcript_storage.rs:371-421 | a transcript is kept exactly when it matches, in order |
| TranscriptStorage.FilterEntriesCount | src/services/transcript_storage.rs:371-421 | filtering never adds occurrences |
| TranscriptStorage.Collect | src/services/transcript_storage.rs:368-422 | collection succeeds exactly when every listed file loads |
| TranscriptStorage.CollectSpec | src/services/transcript_storage.rs:368-422 | every collected transcript matches and comes from a listed file, and every match is collected |
| TranscriptStorage.SearchSpec | src/services/transcript_storage.rs:363-434 | results match, come from listed files and number at most the limit; without a limit every match is returned |
| TranscriptStorage.MetadataOf | src/services/transcript_storage.rs:262-288 | the saved metadata records the file's count, its creation time and now as modification time |
| TranscriptStorage.FileTranscriptStorage.constructor | src/services/transcript_storage.rs:95-133 | the saved index or an empty one, statistics computed from it, then verified against the directory |
| TranscriptStorage.FileTranscriptStorage.FindAvailableFile | src/services/transcript_storage.rs:291-298 | some indexed file below the per-file maximum, or none when every file is full |
| TranscriptStorage.FileTranscriptStorage.StoreTranscript | src/services/transcript_storage.rs:302-347 | the entry joins the chosen file, which is saved with its metadata, its id is located there and the count goes up |
| TranscriptStorage.FileTranscriptStorage.GetTranscript | src/services/transcript_storage.rs:349-361 | the first transcript with the id in its located file, none for an unlocated id, an error when the file cannot be loaded |
| TranscriptStorage.FileTranscriptStorage.SearchTranscripts | src/services/transcript_storage.rs:363-434 | every transcript of every indexed file that passes the filter, in listing order, truncated to the limit |
| TranscriptStorage.FileTranscriptStorage.DeleteTranscript | src/services/transcript_storage.rs:436-455 | an unlocated id changes nothing; otherwise it is unlocated, dropped from its file, the file saved and the count lowered |
| TranscriptStorage.FileTranscriptStorage.BackupTranscripts | src/services/transcript_storage.rs:461-510 | the backup is a header with the count, then one encoded line per transcript of every indexed file |
| TranscriptStorage.FileTranscriptStorage.RestoreLine | src/services/transcript_storage.rs:532-549 | a blank line is passed over, an unparsable one is an error, a located id is skipped, any other transcript is stored |
| TranscriptStorage.FileTranscriptStorage.RestoreAt | src/services/transcript_storage.rs:532-549 | one turn of the restore loop keeps the restored and skipped counts and the located ids in step |
| TranscriptStorage.FileTranscriptStorage.RestoreTranscripts | src/services/transcript_storage.rs:512-561 | the header must be JSON; restored plus skipped is the number of non-blank lines, and the count grows by the restored |
| TranscriptStorage.GetOf | src/services/transcript_storage.rs:349-361 | a found transcript has the id, and an unlocated id finds nothing |
| TranscriptStorage.CheckCriteria | src/services/transcript_storage.rs:373-416 | the flag that each failed condition clears ends up as the filter's verdict |
| TranscriptStorage.Encoded | src/services/transcript_storage.rs:483-491 | one encoded line per transcript |
| TranscriptStorage.RestoreOfBackup | src/services/transcript_storage.rs:461-561 | restoring a backup when the codec reads back what it wrote: every line parses and every transcript with a new, distinct id is restored, none skipped |
| TranscriptStorage.StorageCreation | src/services/transcript_storage.rs:629-638 | a storage opened on an empty directory counts no transcripts |
| TranscriptStorage.StoreAndRetrieve | src/services/transcript_storage.rs:641-662 | a stored transcript is returned under its id with its text and confidence |
| TranscriptStorage.SearchScenario | src/services/transcript_storage.rs:665-697 | searching three stored transcripts for "hello" finds two, and the range [0.90, 1.0] finds two |
| TranscriptStorage.ConfidentMatch | src/services/transcript_storage.rs:690-696 | the range [0.90, 1.0] holds 0.95 and 0.90 but not 0.85 |
| TranscriptStorage.GreetingsMatch | src/services/transcript_storage.rs:681-687 | "hello" occurs, lowered, in the two greetings and not in the farewell |
| TranscriptStorage.BackupAndRestore | src/services/transcript_storage.rs:700-731 | two transcripts backed up and restored into a fresh storage: both restored, none skipped, two counted |
| TranscriptStorage.BackupOfTwo | src/services/transcript_storage.rs:461-510 | the backup of two transcripts in one file is the header and their two lines |
| TranscriptStorage.RestoreIntoEmpty | src/services/transcript_storage.rs:512-561 | restoring a backup into a fresh storage restores every transcript and skips none |
| TranscriptTypes.HourOf | src/services/transcription_analytics.rs:531 | the UTC hour of a timestamp is below 24 |
| TranscriptTypes.DateOfDay | src/services/transcription_analytics.rs:530-531 | two timestamps of one day share their date, and the hour is the seconds into the day over 3600 |
| TranscriptTypes.DefaultSearchCriteria | src/services/transcription_log.rs:815-829 | the default search is full text, newest first, limited to 50, with no query, range, tag, session or language |
| TranscriptTypes.DefaultLogConfig | src/services/transcription_log.rs:802-813 | the default log caches 1000 transcripts with deduplication and analytics on |
| TranscriptionAnalytics.LongTokens | src/services/transcription_analytics.rs:737 | the analytics tokens are the tokens of at least two characters, with their counts |
| TranscriptionAnalytics.MeanAfterSpec | src/services/transcription_analytics.rs:501-503 | the running mean times the new count is the old sum plus the sample, and stays in [0, 1] |
| TranscriptionAnalytics.BumpTrend | src/services/transcription_analytics.rs:513-523 | the first point of the date is bumped or a point for it is appended |
| TranscriptionAnalytics.BumpTrendSpec | src/services/transcription_analytics.rs:513-523 | bumping keeps one trend point per date and records exactly one more occurrence |
| TranscriptionAnalytics.OccurrenceSpec | src/services/transcription_analytics.rs:489-524 | an occurrence counts once, lists the session at most once, keeps one point per date, and keeps the frequency equal to the trend total |
| TranscriptionAnalytics.CountWordStep | src/services/transcription_analytics.rs:489-524 | one occurrence adds one to the word's frequency, makes it a key and keeps its statistics valid |
| TranscriptionAnalytics.CountWordsValid | src/services/transcription_analytics.rs:485-527 | counting keeps every word's statistics valid |
| TranscriptionAnalytics.CountWordsKey | src/services/transcription_analytics.rs:485-527 | a word is a key after counting exactly when it was before or is a token |
| TranscriptionAnalytics.CountWordsFrequency | src/services/transcription_analytics.rs:485-527 | counting adds each token's number of occurrences to its frequency |
| TranscriptionAnalytics.CountWordsSpec | src/services/transcription_analytics.rs:485-527 | the same three facts together |
| TranscriptionAnalytics.DailyUpdate | src/services/transcription_analytics.rs:529-556 | only the transcript's date changes, and it is created when missing |
| TranscriptionAnalytics.DailyUpdateSpec | src/services/transcription_analytics.rs:529-556 | over all days one transcript and its whitespace word count are added, and days stay filed under their dates |
| TranscriptionAnalytics.DailyRangeSpec | src/services/transcription_analytics.rs:429-434 | the range holds exactly the stored days between the bounds, each once, in date order |
| TranscriptionAnalytics.DropOlderSpec | src/services/transcription_analytics.rs:572-577 | pruning removes only from the front: a suffix is left, its first point is inside the window, every dropped point is older |
| TranscriptionAnalytics.PruneAccuracy | src/services/transcription_analytics.rs:558-580 | the sample is appended, then samples older than the retention window leave from the front |
| TranscriptionAnalytics.MeanAccuracySingle | src/services/transcription_analytics.rs:745-752 | a single sample's mean is its accuracy |
| TranscriptionAnalytics.MeanAccuracyBounds | src/services/transcription_analytics.rs:745-752 | the mean of a non-empty trend lies within any bounds of its samples |
| TranscriptionAnalytics.SessionUpdate | src/services/transcription_analytics.rs:582-612 | one more transcript, its words and its duration added to the session |
| TranscriptionAnalytics.ModelUpdate | src/services/transcription_analytics.rs:614-650 | one more transcript and one accuracy point for the model |
| TranscriptionAnalytics.ModelMeanBounded | src/services/transcription_analytics.rs:637-639 | the mean processing time never exceeds the larger of the old mean and the sample, so the u64 cap never applies |
| TranscriptionAnalytics.WeekdayOf | src/services/transcription_analytics.rs:654 | the weekday counted from Monday is below 7 |
| TranscriptionAnalytics.InsertAscending | src/services/transcription_analytics.rs:661-662 | push then sort adds one element |
| TranscriptionAnalytics.InsertAscendingSpec | src/services/transcription_analytics.rs:661-662 | inserting a new hour into a strictly ascending list keeps it strictly ascending and adds just that hour |
| TranscriptionAnalytics.PeakHoursSpec | src/services/transcription_analytics.rs:660-666 | the peak hours stay strictly ascending, at most three, hold only hours seen, and a new hour is kept while fewer than three are listed |
| TranscriptionAnalytics.QualityTrendAfter | src/services/transcription_analytics.rs:679-691 | the date's first point is averaged and counted, or a point is appended |
| TranscriptionAnalytics.HourQualityAfter | src/services/transcription_analytics.rs:694-696 | only the transcript's hour changes, created when missing |
| TranscriptionAnalytics.SessionsAfter | src/services/transcription_analytics.rs:582-612 | without a session nothing changes; otherwise only its entry is updated or created |
| TranscriptionAnalytics.ModelsAfter | src/services/transcription_analytics.rs:614-616 | the model's entry is updated or created |
| TranscriptionAnalytics.UsageAfter | src/services/transcription_analytics.rs:652-669 | the hour and weekday distributions each count the transcript once |
| TranscriptionAnalytics.PerformanceAfter | src/services/transcription_analytics.rs:701-727 | one latency point and one throughput point are appended |
| TranscriptionAnalytics.EmptyState | src/services/transcription_analytics.rs:360-372 | a new engine's state is valid |
| TranscriptionAnalytics.StepValid | src/services/transcription_analytics.rs:375-414 | an update keeps the state valid |
| TranscriptionAnalytics.StepState | src/services/transcription_analytics.rs:375-414 | the update with its word and pruning loops computes the specified step |
| TranscriptionAnalytics.TranscriptAnalytics.constructor | src/services/transcription_analytics.rs:360-372 | a new engine holds the empty state |
| TranscriptionAnalytics.TranscriptAnalytics.UpdateWithTranscript | src/services/transcription_analytics.rs:375-414 | the state steps and stays valid; with every feature off it is unchanged |
| TranscriptionAnalytics.TranscriptAnalytics.GetWordFrequency | src/services/transcription_analytics.rs:417-426 | the words sorted by descending frequency, truncated to the limit |
| TranscriptionAnalytics.TranscriptAnalytics.GetDailyStats | src/services/transcription_analytics.rs:429-434 | for a range that is not reversed, exactly the stored days from start to end, in date order |
| TranscriptionAnalytics.TranscriptAnalytics.GenerateReport | src/services/transcription_analytics.rs:467-481 | totals summed over the days, the mean accuracy, the top words, the quality, insights and recommendations |
| TranscriptionAnalytics.CountTokens | src/services/transcription_analytics.rs:488-524 | the counting loop computes the specified counts |
| TranscriptionAnalytics.SumDays | src/services/transcription_analytics.rs:467-481 | the day loop sums the transcript and word totals over every day |
| TranscriptionAnalytics.Pairs | src/services/transcription_analytics.rs:418-420 | the map's entries along a key order |
| TranscriptionAnalytics.SortedPairsMembers | src/services/transcription_analytics.rs:418-421 | the sorted pairs hold exactly the map's entries |
| TranscriptionAnalytics.TopWordsSpec | src/services/transcription_analytics.rs:417-426 | the top words are entries of the map, in descending frequency, at most the limit; without a limit every word appears |
| TranscriptionAnalytics.Frequencies | src/services/transcription_analytics.rs:467-481 | each top word with its frequency |
| TranscriptionAnalytics.UsageInsights | src/services/transcription_analytics.rs:754-770 | at most two insights, the first naming the peak hours exactly when there are any |
| TranscriptionAnalytics.Recommendations | src/services/transcription_analytics.rs:781-793 | the audio-quality advice appears exactly when quality is below 0.8, the load-balancing advice exactly when more than two peak hours are listed |
| TranscriptionAnalytics.WordFrequencyScenario | src/services/transcription_analytics.rs:934-950 | "hello world hello" counts hello twice, world once and nothing else |
| TranscriptionAnalytics.DailyStatsScenario | src/services/transcription_analytics.rs:953-973 | "hello world" at 0.9 files one transcript of two words at 0.9 under its date |
| TranscriptionAnalytics.ReportTotals | src/services/transcription_analytics.rs:976-994 | one transcript of three words gives totals of one transcript and three words |
| TranscriptionAnalytics.ReportAccuracy | src/services/transcription_analytics.rs:976-994 | a sample inside the window survives pruning and is the mean |
| TranscriptionAnalytics.ReportWords | src/services/transcription_analytics.rs:976-994 | "hello world test" puts hello among the counted words |
| TranscriptionAnalytics.TopWordsNonEmpty | src/services/transcription_analytics.rs:976-994 | a non-empty word map has a non-empty top list |
| TranscriptionAnalytics.ReportScenario | src/services/transcription_analytics.rs:976-994 | one "hello world test" at 0.85 reports one transcript, three words, mean confidence 0.85 and a non-empty top-word list |
| TranscriptionLog.HashIgnoresCaseAndOuterSpace | src/services/transcription_log.rs:776-783 | texts that agree once lower-cased and trimmed hash alike, whatever the hasher |
| TranscriptionLog.HashOfSpacedWord | src/services/transcription_log.rs:776-783 | a leading space does not change a word's hash |
| TranscriptionLog.HashOfLowered | src/services/transcription_log.rs:776-783 | lower-casing first does not change the hash |
| TranscriptionLog.LowerKeepsWord | src/services/transcription_log.rs:781 | a word stays a word once lower-cased |
| TranscriptionLog.ToLowerAppend | src/services/transcription_log.rs:781 | lower-casing distributes over concatenation |
| TranscriptionLog.IsSimilarThreshold | src/services/transcription_log.rs:79-81 | similar exactly when the similarity reaches the threshold, so a lower threshold accepts every pair a higher one does |
| TranscriptionLog.SimilarityBounds | src/services/transcription_log.rs:76 | every matcher's similarity lies in [0, 1] |
| TranscriptionLog.DefaultStopWords | src/services/transcription_log.rs:786-798 | the stop words include "the", "a" and "part" |
| TranscriptionLog.ServiceDedupConfig | src/services/transcription_log.rs:605-644 | the service's deduplicator uses threshold 0.85, a ten-minute window, fuzzy matching and content hashing |
| TranscriptionLog.ServiceIndexConfig | src/services/transcription_log.rs:605-644 | the service's indexer indexes words and phrases up to five words long, words of at least two characters, skipping the default stop words |
| TranscriptionLog.ServiceAnalyticsConfig | src/services/transcription_log.rs:605-644 | the service's analytics track words, days and accuracy over 365 days |
| TranscriptionLog.NewEntry | src/services/transcription_log.rs:648-688 | the logged entry carries the given text, confidence, model and duration, is timestamped now and has no audio file, session or tags |
| TranscriptionLog.Verdict | src/services/transcription_log.rs:691-708 | the deduplicator's verdict when deduplication is on, otherwise Unique |
| TranscriptionLog.Lookup | src/services/transcription_log.rs:695-696 | a stored id is found and a missing one is TranscriptNotFound |
| TranscriptionLog.CacheIsFifo | src/services/transcription_log.rs:721-724 | the recent cache evicts first in, first out: it holds the last entries up to its bound, the new one last |
| TranscriptionLog.TranscriptionLogService.constructor | src/services/transcription_log.rs:605-644 | a deduplicator, indexer and analytics engine with the service's configurations, the given storage and an empty cache |
| TranscriptionLog.TranscriptionLogService.LogTranscription | src/services/transcription_log.rs:647-729 | an exact duplicate returns the stored entry or TranscriptNotFound and stores nothing; otherwise the entry is stored, indexed and counted when analytics is on, and cached |
| TranscriptionLog.TranscriptionLogService.Record | src/services/transcription_log.rs:711-724 | the entry is stored, indexed and counted when analytics is on, and cached |
| TranscriptionLog.TranscriptionLogService.Feed | src/services/transcription_log.rs:715-718 | the entry is indexed and counted in the analytics |
| TranscriptionLog.FreshServiceFindsNoDuplicate | src/services/transcription_log.rs:605-729 | since the service never feeds its deduplicator, a fresh service acts on Unique verdicts only |
| TranscriptionLog.LogScenario | src/services/transcription_log.rs:911-937 | with deduplication off the test text is logged and returned with its confidence, model and duration |
| TranscriptionLog.DuplicateLoggedTwice | src/services/transcription_log.rs:647-729 | with deduplication on the same text logged twice is stored twice, both reported Unique |
| Vad.ThresholdBounds | src/services/vad.rs:180-187 | the threshold lies in [5e-4, 1e-2] and falls strictly as sensitivity rises within [0, 1] |
| Vad.Adapted | src/services/vad.rs:189-202 | the adapted threshold lies in [1e-5, 5e-2] |
| Vad.AdaptedNeverFalls | src/services/vad.rs:189-202 | adaptation only moves the threshold up towards louder frames, and a frame no louder leaves it alone |
| Vad.FrameEnergy | src/services/vad.rs:205-211 | the frame energy is non-negative and 0 for an empty frame |
| Vad.Hangover | src/services/vad.rs:135-152 | voice is reported exactly for a loud frame or within the timeout of the last voice; a loud frame opens a segment if none is open, and past the timeout the segment is reset |
| Vad.Confidence | src/services/vad.rs:161-165 | the confidence lies in [0, 1] and is 1 from four thresholds up |
| Vad.ConfidenceMonotone | src/services/vad.rs:161-165 | the confidence grows with the energy |
| Vad.VadService.constructor | src/services/vad.rs:35-48 | a detector that is inactive, gate closed, threshold from the sensitivity, no segment |
| Vad.VadService.Start | src/services/vad.rs:51-56 | the detector becomes active with the hangover state cleared |
| Vad.VadService.Stop | src/services/vad.rs:59-65 | the detector becomes inactive, nothing else changes |
| Vad.VadService.SetSensitivity | src/services/vad.rs:73-76 | the sensitivity is clamped to [0, 1] and the threshold recomputed |
| Vad.VadService.SetMode | src/services/vad.rs:84-86 | the mode is replaced, nothing else changes |
| Vad.VadService.SetGate | src/services/vad.rs:94-101 | closing the gate resets segment tracking; opening keeps it |
| Vad.VadService.ProcessFrame | src/services/vad.rs:106-178 | an inactive detector or a closed gate in push-to-talk or toggle mode reports no voice and changes nothing; otherwise the hangover step and adaptation decide voice, segment and threshold |
| Vad.HangoverScenario | src/services/vad.rs:133-158 | in auto mode a loud frame opens a segment, a quiet one within the timeout still reports voice, and one past it reports none and closes the segment |
| VoiceEngine.PatternsForShape | src/services/voice_commands.rs:343-350 | one pattern per phrase form, each at the default priority and naming the command |
| VoiceEngine.BuildPatterns | src/services/voice_commands.rs:343-350 | the registration loop builds exactly one enabled default-priority pattern per phrase form, in order |
| VoiceEngine.RegisteredPatterns | src/services/voice_commands.rs:338-359 | after a registration every pattern still has the default priority and names a registered command, so re-sorting by priority leaves the list as it was |
| VoiceEngine.Similarity | src/services/voice_commands.rs:616-649 | the similarity lies in [0, 1] and is 1 exactly when the two strings are equal |
| VoiceEngine.SimilaritySelf | src/services/voice_commands.rs:620-648 | a string is fully similar to itself |
| VoiceEngine.SimilaritySymmetric | src/services/voice_commands.rs:616-649 | similarity does not depend on the order of its arguments |
| VoiceEngine.SimilarityAtLeast | src/services/voice_commands.rs:645-648 | an edit distance of at most d bounds the similarity from below by one minus d over the longer length |
| VoiceEngine.CalculateSimilarity | src/services/voice_commands.rs:616-649 | the dynamic-programming table yields exactly the similarity |
| VoiceEngine.MatchPattern | src/services/voice_commands.rs:561-571 | an exact pattern matches equal text, a contains pattern a substring, a regex its language and a fuzzy pattern a similarity at its threshold |
| VoiceEngine.FirstDirect | src/services/voice_commands.rs:377-393 | the first enabled pattern that matches directly and names a registered command, and no earlier one does |
| VoiceEngine.BestFuzzy | src/services/voice_commands.rs:577-598 | the best fuzzy candidate reaches the threshold, no candidate scores higher and every earlier one scores strictly lower |
| VoiceEngine.ParseFirstHit | src/services/voice_commands.rs:377-393 | the first direct hit in list order wins, with confidence 1 and the matched pattern |
| VoiceEngine.ParseFuzzy | src/services/voice_commands.rs:396-400 | without a direct hit a parse succeeds only by fuzzy matching, with the confidence of the best-scoring enabled non-regex pattern |
| VoiceEngine.ParseNotFound | src/services/voice_commands.rs:369-403 | parsing fails exactly when nothing matches directly or fuzzily, and then reports the normalised input |
| VoiceEngine.ParseIgnoresCase | src/services/voice_commands.rs:370-374 | unless matching is case-sensitive, an input and its lower-case form parse alike |
| VoiceEngine.ParseKnown | src/services/voice_commands.rs:383-390 | every successful parse names a registered command with its category and a confidence in [0, 1] |
| VoiceEngine.SuggestionScore | src/services/voice_commands.rs:652-670 | a suggestion scores 0.9 for a prefix, 0.7 for a substring, half a similarity above 0.6 otherwise, and regex patterns score nothing |
| VoiceEngine.PrefixScoresHighest | src/services/voice_commands.rs:655-656 | a pattern the input begins scores at least as high as any other pattern |
| VoiceEngine.SubstringOutranksSimilarity | src/services/voice_commands.rs:657-662 | a substring match outranks every match by similarity alone |
| VoiceEngine.EmptyInputScores | src/services/voice_commands.rs:655-656 | the empty input is a prefix of every non-regex pattern |
| VoiceEngine.SuggestionsFromSound | src/services/voice_commands.rs:494-506 | every suggestion built from a command names it, its category and one of its patterns, with that pattern's score |
| VoiceEngine.CandidatesSound | src/services/voice_commands.rs:494-506 | every candidate suggestion comes from some registered command and carries its pattern's score |
| VoiceEngine.SuggestionsShape | src/services/voice_commands.rs:486-514 | suggestions are off when disabled, otherwise at most ten candidates in descending order of score |
| VoiceEngine.SuggestionsTopIsBest | src/services/voice_commands.rs:509-511 | the first suggestion scores at least as high as every candidate |
| VoiceEngine.SuggestionsKeepAllWhenFew | src/services/voice_commands.rs:509-511 | with ten candidates or fewer, every candidate is suggested |
| VoiceEngine.ScoreSuggestion | src/services/voice_commands.rs:652-670 | the score computed with the table equals the scoring function |
| VoiceEngine.Settle | src/services/voice_commands.rs:424-468 | the bookkeeping after a handler returns keeps the history within its maximum size |
| VoiceEngine.ExecuteOf | src/services/voice_commands.rs:406-469 | executing keeps the history within its maximum size |
| VoiceEngine.SettleFailure | src/services/voice_commands.rs:429-436 | a handler error is returned unchanged, counts one more failure and one more of that error text, and leaves the history and other counters alone |
| VoiceEngine.SettleSuccess | src/services/voice_commands.rs:425-468 | a success counts one more success, command and use of its name, and appends the run to the history, evicting the oldest when it is full |
| VoiceEngine.SettleKeepsTotals | src/services/voice_commands.rs:424-444 | only successes reach the total, so total and successes stay equal and every run is counted once |
| VoiceEngine.RecentAfterSuccess | src/services/voice_commands.rs:455-466 | right after a success the newest history entry is that run |
| VoiceEngine.Recent | src/services/voice_commands.rs:546-548 | at most limit entries, newest first |
| VoiceEngine.ProcessOf | src/services/voice_commands.rs:472-483 | processing an utterance keeps the history within its maximum size |
| VoiceEngine.ProcessUnparsed | src/services/voice_commands.rs:481 | an utterance that does not parse fails with not found and changes nothing |
| VoiceEngine.ProcessRecordsSpokenText | src/services/voice_commands.rs:473-482 | the handler and the history see the utterance as spoken, not lower-cased |
| VoiceEngine.WithoutCommand | src/services/voice_commands.rs:364 | exactly the patterns of other commands, in order |
| VoiceEngine.WithoutCommandAppend | src/services/voice_commands.rs:364 | the filter distributes over concatenation |
| VoiceEngine.WithoutCommandAbsent | src/services/voice_commands.rs:364 | patterns of other commands survive untouched |
| VoiceEngine.WithoutCommandAll | src/services/voice_commands.rs:364 | the command's own patterns all go |
| VoiceEngine.RegisterThenUnregister | src/services/voice_commands.rs:338-366 | registering a new command and unregistering it restores the pattern list |
| VoiceEngine.VoiceCommandEngine.WithConfig | src/services/voice_commands.rs:325-335 | an empty engine with the given configuration over the default context |
| VoiceEngine.VoiceCommandEngine.New | src/services/voice_commands.rs:312-322 | an empty engine with the default configuration |
| VoiceEngine.VoiceCommandEngine.RegisterCommand | src/services/voice_commands.rs:338-359 | the command is stored under its name, replacing any earlier one, its patterns are appended and nothing else changes |
| VoiceEngine.VoiceCommandEngine.UnregisterCommand | src/services/voice_commands.rs:362-366 | the command and every pattern selecting it are removed and nothing else changes |
| VoiceEngine.VoiceCommandEngine.ParseCommand | src/services/voice_commands.rs:369-403 | the parse equals the specification: first direct hit, else best fuzzy match, else not found |
| VoiceEngine.VoiceCommandEngine.FuzzyMatch | src/services/voice_commands.rs:574-613 | the loop finds the highest similarity at the threshold, earliest on ties |
| VoiceEngine.VoiceCommandEngine.ExecuteCommand | src/services/voice_commands.rs:406-469 | result and new state are those the execution specification gives, and commands, patterns and configuration stay |
| VoiceEngine.VoiceCommandEngine.RecordOutcome | src/services/voice_commands.rs:424-468 | the counters and history after a handler returns are those the bookkeeping specification gives |
| VoiceEngine.VoiceCommandEngine.ProcessVoiceInput | src/services/voice_commands.rs:472-483 | result and new state are those of parsing and then executing the utterance as spoken |
| VoiceEngine.VoiceCommandEngine.GetSuggestions | src/services/voice_commands.rs:486-514 | the suggestions equal the specification over the commands in the map's iteration order |
| VoiceEngine.VoiceCommandEngine.UpdateContext | src/services/voice_commands.rs:551-553 | the context is replaced and nothing else changes |
| VoiceEngine.ParsesTestCommand | src/services/voice_commands.rs:847-857 | "test command" parses to the test command directly with confidence 1 |
| VoiceEngine.FuzzyParsesMisspelling | src/services/voice_commands.rs:859-869 | the misspelt "tst comand" reaches the test command with confidence above 0.8 |
| VoiceEngine.SuggestsTestCommand | src/services/voice_commands.rs:883-891 | "tes" suggests the test command first |
| VoiceEngine.CommandsInCategory | src/services/voice_commands.rs:517-523 | exactly the registered commands of the given category |

## Left out

Handled differently in the model:
- VoiceTypes.SystemContext: the handlers write fields through `&mut SystemContext`. Here each handler is a function that returns the new context, and its contract states the whole new context. Aliasing of the context is not modelled.
- VoiceEngine.VoiceCommandEngine.ExecuteCommand: the `tokio::time::timeout` path is not modelled (src/services/voice_commands.rs:437-440). That path adds one to failed_commands and answers `Err(Timeout)`. The update of average_execution_time is not modelled either (src/services/voice_commands.rs:450-452). Execution is a plain sequential call, and the handler's outcome is what the model computes.
- VoiceEngine.Similarity: the length is counted in characters. The source takes byte lengths with `len()` and indexes with `chars().nth` (src/services/voice_commands.rs:617-638), so the two differ on non-ASCII text.
- Deduplication.Similarity: the length is counted in characters, where the source counts bytes with `len()`. The results differ on non-ASCII text.
- TestRecorder.WordsAreSimilar: the length is counted in characters, where the source counts bytes with `len()`. The results differ on non-ASCII text.
- Common.ToLower: lower-cases ASCII letters only. Rust's `to_lowercase` is Unicode-wide.
- Regexes.Group: `\d` and `\w` are ASCII classes here. They are Unicode classes in the Rust `regex` crate.
- Floating point: every `f32`/`f64` is a mathematical `real`. The model therefore has no rounding, no NaN, and no `partial_cmp(...).unwrap()` panic on NaN. Decimal constants such as 0.72 are exact, where in binary floating point they are only approximated.
- VoiceEngine.VoiceCommandEngine.GetSuggestions: iteration over a `HashMap` follows an order passed in as a parameter, and the contracts hold for every order. The same applies to ContextManager.CommandContextManager.SuggestNextCommands, ContextManager.CommandContextManager.GetCommandCompletions and the indexer's maps and sets in TranscriptSearch.
- Deduplication.Matcher: the semantic matcher (word embeddings and cosine similarity) is not part of this model, as it is floating-point numerics. The combined matcher does not consult it: in the source, the combined matcher weighs three placeholder constants, giving the 0.72 of Deduplication.CombinedSimilarity.
- Deduplication.MergeSimilar: `requires |ts| > 0` stands for the panic on an empty list (src/services/transcription_deduplication.rs:197-199).
- SessionTracker.SessionTranscriptTracker.AddPhrase: `requires audio_start <= audio_end` stands for the `Duration` subtraction panic (src/services/session_transcript_tracker.rs:306).
- TranscriptionAnalytics.TranscriptAnalytics.GetDailyStats: `requires start <= end` stands for the `BTreeMap::range` panic on a reversed range (src/services/transcription_analytics.rs:431). No caller in the source passes a reversed range.
- VoiceEngine.VoiceCommandEngine.ExecuteCommand: the `command.validate_context(&self.context)?` call (src/services/voice_commands.rs:414) has no counterpart. The trait default (src/services/voice_commands.rs:218-220) and every override return `Ok(())`, so the call never changes the outcome.
- TranscriptSearch.ConfidenceRangeBounds: stated for confidences in [0, 1]. For scores of 2.5 and above, the source's `u8` bucket `start + 10` would overflow.
- TranscriptSearch.TfIdf: the natural logarithm is a function parameter.
- Deduplication.HashInput: the standard library's `DefaultHasher` is an uninterpreted function applied to the text that HashInput chooses. The same holds in TranscriptionLog and for the TranscriptStorage codec.
- AudioSessionManager.SessionManager.GetStorageStats: the byte totals are unbounded integers, so there is no `u64` overflow.
- AudioSessionManager.SanitizeFilename: `is_alphanumeric` is modelled as ASCII letters and digits.
- TestRecorder.RecordingState.AddDetectionSamples: instants are whole milliseconds supplied by the caller.

Notes on the source and its tests:
- Deduplication.LevenshteinHeloExample: the strict `> 0.8` of the test at src/services/transcription_deduplication.rs:664 cannot hold, because the similarity is exactly 0.8.
- Deduplication.DeduplicationScenario: the scenario test at src/services/transcription_deduplication.rs:680-743 expects SimilarTranscript. The combined score of 0.72 is below the 0.8 threshold, so the model answers Unique.
- TranscriptionLog.TranscriptionLogService.LogTranscription: the log service asks its deduplicator for a verdict but never adds the new entry to it (src/services/transcription_log.rs:691-708). The model keeps that behaviour.
- BasicCommands.SensitivitySet: the pattern `sensitivity ([\d.]+)` (src/services/voice_commands/basic_commands.rs:401) routes "sensitivity 0.5", the command's own example at line 425, to this handler. The handler reads only `sensitivity to ([\d.]+)` (line 379), so that example ends in "Could not parse sensitivity value". The model keeps this behaviour; no corrected handler is modelled.
- BasicCommands.Execute: the help pattern `Exact("what can I say")` (src/services/voice_commands/basic_commands.rs:532) holds an upper-case letter. The engine lower-cases the input before matching unless matching is case-sensitive (src/services/voice_commands.rs:370-374), so by default that pattern never matches. The model keeps the pattern as written.

Not modelled:
- The TranscriptionLog delegations `search_transcripts`, `get_analytics`, `get_storage_stats` and `backup_transcripts`, and `export_transcripts`. They forward to services modelled elsewhere, or do file I/O (src/services/transcription_log.rs:747-768).
- Placeholder suggestion sources that always return nothing. These are the completion, similarity and proactive suggestions of the suggestion engine, and the learning steps that do nothing. The model treats them as empty.
- Console output (`println!`, `tracing`). It reports and changes no state.
- Audio capture and playback: cpal streams, the audio callback closures, `start_capture` and `configure_audio_source`. WAV reading and writing with hound is also out. These are I/O and concurrency.
- The audio services the session manager holds (audio, STT, VAD, storage). The outcomes of their calls are parameters.
- Signal processing:
  - the energy of `detect_speech`;
  - quality metrics;
  - `resample_linear`;
  - `normalize_audio_volume`;
  - `trim_silence*`;
  - sentiment beyond its word-count shape.
  It is floating-point numerics.
- Parts of the test recorder binary that are I/O or numerics:
  - its `main` loop;
  - the text-to-speech and `say` calls;
  - playback;
  - `save_recording`;
  - the validation scoring;
  - `extract_phrase_from_buffer` and `extract_phrase_from_buffer_with_padding`;
  - `create_clean_test_file`.
- File-system, serde, JSON and TOML encoding. Files are maps from name to contents or to byte count.
- The whisper backend and the `tts` crate. These are foreign calls.
- src/services/transcription_manager.rs is not part of this model. It is orchestration over the modelled services.
- src/core/error.rs is not part of this model. It is enum plumbing.
- src/lib.rs `init`/`cleanup` are not part of this model. They set up logging and file-system state.
- The UI, tray, history palette, clipboard, hotkey-registration, paste and platform modules are not part of this model. They are stubs and platform code.
- The crossterm rendering of the audio menu is not part of this model. AudioMenu keeps only the navigation state.
- The remaining binaries and main.rs are not part of this model. They are I/O drivers.

## Findings

| source | as written | input that shows it | evidently intended | confidence | as-written member | corrected member |
|---|---|---|---|---|---|---|
| src/services/voice_commands/stt_commands.rs:82-114 | the capture alternation tries `[a-z]{2}` before the language names | "set language to spanish" sets "sp"; "auto" is never captured, so the language is never reset | names first, so "spanish" sets "es" and "auto" clears it | not executed | SttCommands.LanguageSetAsWritten (SttCommands.LanguageSpanishAsWritten, SttCommands.LanguageAsWrittenNeverAuto) | SttCommands.LanguageSet (SttCommands.LanguageSpanish) |
| src/services/voice_commands/transcript_management_commands.rs:379-383 | the tag is taken after a split on the letters "as", wherever they occur | "tag transcript as class" is not tagged "class" | split on the word " as " | not executed | TranscriptCommands.TagAsWritten (TranscriptCommands.TagClassMissed) | TranscriptCommands.Tag (TranscriptCommands.TagClassAsWritten) |
| src/services/voice_commands/transcript_management_commands.rs:701-715 | the file name is `split("as")[1]`, a split on the letters "as" | "save transcript as database" does not export to database.txt | split on the word " as " | not executed | TranscriptCommands.FileNameAsWritten (TranscriptCommands.FileNameDatabaseMissed) | TranscriptCommands.FileName (TranscriptCommands.FileNameDatabase) |
| src/services/session_transcript_tracker.rs:508-511 | silence is session length minus speaking time, a `Duration` subtraction that panics when it would go below zero | one phrase of ten seconds in a session that ends after one second | a saturating subtraction, giving 0 % silence | not executed | SessionTracker.SilencePercentageAsWritten (SessionTracker.SilencePanicsWhenAudioOutlastsSession, SessionTracker.EndedAsWrittenSpec, SessionTracker.AudioOutlastsSession) | SessionTracker.SilencePercentage (SessionTracker.SilencePercentageSpec) |
| src/services/transcription_search.rs:610-622 | the tag loop restarts from the next tag's set whenever the running intersection is empty | tags "a", "b", "c" naming documents 1, 2 and 3 give {3} | the documents carrying every requested known tag, here none | not executed | TranscriptSearch.TagDocsAsWritten (TranscriptSearch.TagSearchRestarts) | TranscriptSearch.TagDocs (TranscriptSearch.TagDocsSpec) |
| src/services/audio_storage.rs:636-645 | the fence `sessions_by_age.len() - sessions_to_keep` is a `usize` subtraction. It panics in a debug build when fewer sessions are stored than are to be kept. A release build wraps around, the break never fires, and the size phase deletes the most recent sessions as well | one 11 GiB session under the default policy (keep 10, cap 10 GiB) is deleted | spare the newest `sessions_to_keep` sessions, all of them when there are fewer | not executed | AudioStorage.SizeVictims (AudioStorage.WrappedFence, AudioStorage.CleanupWrapExample) | AudioStorage.SizeVictimsIntended (AudioStorage.SizeVictimsIntendedSpec) |
| src/services/voice_commands/comprehensive_registry.rs:591-630 | `get_total_command_count` sums a hand-written table to 48, while the test at line 630 expects at least 75 | the registry's 82 registered commands | count the registered commands | not executed | RegistryCommands.TotalCommandCountAsWritten (Catalog.TotalCountAsWrittenTooLow) | Catalog.TotalCommandCount |
