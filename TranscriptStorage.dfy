/**
 * File-based transcript storage: transcripts are kept in JSON storage files
 * of bounded size inside a storage directory, with an in-memory index from
 * transcript id to file and per-file metadata, running statistics, search
 * over every indexed file, deletion, and backup to and restore from a
 * line-per-transcript file.
 *
 * The storage directory is a map from file name to file contents. The JSON
 * encoding is uninterpreted (a `Codec` of functions); the clock and the
 * formatted timestamp used in file names are parameters.
 */
module TranscriptStorage {
  import opened Common
  import opened TranscriptTypes

  // ---------------------------------------------------------------------
  // Data model
  // ---------------------------------------------------------------------

  /** `FileStorageConfig`; the flush interval is in seconds. */
  datatype FileStorageConfig = FileStorageConfig(
    max_transcripts_per_file: nat, enable_compression: bool, auto_flush_interval: nat,
    index_rebuild_threshold: nat)

  /** `FileStorageConfig::default`. */
  function DefaultFileStorageConfig(): (c: FileStorageConfig)
    ensures c.max_transcripts_per_file == 1000 && !c.enable_compression && c.auto_flush_interval == 300
    ensures c.index_rebuild_threshold == 10000
  {
    FileStorageConfig(1000, false, 300, 10000)
  }

  /** `FileLocation`: the storage file holding a transcript. */
  datatype FileLocation = FileLocation(file_name: string, offset: Option<nat>, size: Option<nat>)

  /** `FileMetadata`. */
  datatype FileMetadata = FileMetadata(transcript_count: nat, file_size: nat, created_at: int, modified_at: int)

  /** `StorageFile`: the contents of one storage file. */
  datatype StorageFile = StorageFile(version: string, created_at: int, transcripts: seq<TranscriptEntry>)

  /** `TranscriptIndex`. */
  datatype TranscriptIndex = TranscriptIndex(
    transcript_locations: map<TranscriptId, FileLocation>, file_metadata: map<string, FileMetadata>,
    last_updated: int)

  /** `TranscriptStorageStats` without the deduplication savings, which this storage leaves at zero. */
  datatype StorageStats = StorageStats(
    total_transcripts: nat, storage_size_bytes: nat, total_words: nat, average_length: real,
    oldest_transcript: Option<int>, newest_transcript: Option<int>)

  /** `BackupResult` without the duration: the count and the lines written. */
  datatype BackupResult = BackupResult(transcripts_backed_up: nat, lines: seq<string>)

  /** `RestoreResult` without the duration. */
  datatype RestoreResult = RestoreResult(transcripts_restored: nat, duplicates_skipped: nat)

  /**
   * The JSON encoding, uninterpreted: one transcript on one line, its
   * parse, the backup header for a transcript count and a time, whether a
   * line is JSON at all, and the size of a pretty-printed storage file.
   */
  datatype Codec = Codec(
    encode: TranscriptEntry -> string, decode: string -> Option<TranscriptEntry>, header: (nat, int) -> string,
    is_json: string -> bool, file_size: StorageFile -> nat)

  // ---------------------------------------------------------------------
  // File names
  // ---------------------------------------------------------------------

  /** The candidate file name for a timestamp and a counter. */
  function FileName(stamp: string, counter: nat): string
  {
    if counter == 0 then "transcripts_" + stamp + ".json"
    else "transcripts_" + stamp + "_" + NatToString(counter) + ".json"
  }

  /** Different counters give different names. */
  lemma FileNameInjective(stamp: string, a: nat, b: nat)
    requires FileName(stamp, a) == FileName(stamp, b)
    ensures a == b
  {
    var p := "transcripts_" + stamp;
    if a != 0 && b != 0 {
      var na, nb := FileName(stamp, a), FileName(stamp, b);
      assert na == p + "_" + NatToString(a) + ".json";
      assert na[|p| + 1..|na| - 5] == NatToString(a);
      assert nb[|p| + 1..|nb| - 5] == NatToString(b);
      assert DigitsValue(NatToString(a)) == a && DigitsValue(NatToString(b)) == b;
    }
  }

  /** The names for the counters below `n`. */
  function NamesBelow(stamp: string, n: nat): set<string>
  {
    set c | 0 <= c < n :: FileName(stamp, c)
  }

  /** There are as many names below `n` as counters. */
  lemma {:induction false} NamesBelowCard(stamp: string, n: nat)
    ensures |NamesBelow(stamp, n)| == n
  {
    if n == 0 {
      assert NamesBelow(stamp, 0) == {};
    } else {
      NamesBelowCard(stamp, n - 1);
      var last := FileName(stamp, n - 1);
      var below := NamesBelow(stamp, n - 1);
      assert last !in below by {
        if last in below {
          var c :| 0 <= c < n - 1 && FileName(stamp, c) == last;
          FileNameInjective(stamp, c, n - 1);
        }
      }
      assert NamesBelow(stamp, n) == below + {last} by {
        forall x | x in NamesBelow(stamp, n) ensures x in below + {last} {
          var c :| 0 <= c < n && FileName(stamp, c) == x;
          if c < n - 1 { assert x in below; }
        }
      }
    }
  }

  /** When the first `n` candidates are all taken, there are at least `n` names taken. */
  lemma TakenBound(stamp: string, taken: set<string>, n: nat)
    requires forall c :: 0 <= c < n ==> FileName(stamp, c) in taken
    ensures n <= |taken|
  {
    NamesBelowCard(stamp, n);
    SubsetCard(NamesBelow(stamp, n), taken);
  }

  lemma TakenExtend(stamp: string, taken: set<string>, n: nat)
    requires forall c :: 0 <= c < n ==> FileName(stamp, c) in taken
    requires FileName(stamp, n) in taken
    ensures forall c :: 0 <= c < n + 1 ==> FileName(stamp, c) in taken
  {
  }

  /** The first candidate from `counter` on that is not taken. */
  function NextNameFrom(stamp: string, taken: set<string>, counter: nat): (r: string)
    requires forall c :: 0 <= c < counter ==> FileName(stamp, c) in taken
    ensures r !in taken
    ensures exists c :: counter <= c && r == FileName(stamp, c)
    decreases |taken| - counter
  {
    TakenBound(stamp, taken, counter);
    if FileName(stamp, counter) !in taken then FileName(stamp, counter)
    else NextNameFrom(stamp, taken, counter + 1)
  }

  /** The name `get_next_file_name` picks: the first candidate not already indexed. */
  function NextName(stamp: string, taken: set<string>): (r: string)
    ensures r !in taken
  {
    NextNameFrom(stamp, taken, 0)
  }

  /**
   * `get_next_file_name`: counter 0 is the bare timestamp, higher counters
   * append `_counter`; the first name not in the file metadata is returned.
   */
  method GetNextFileName(stamp: string, taken: set<string>) returns (name: string)
    ensures name == NextName(stamp, taken) && name !in taken
  {
    var counter := 0;
    while true
      invariant forall c :: 0 <= c < counter ==> FileName(stamp, c) in taken
      invariant NextNameFrom(stamp, taken, counter) == NextName(stamp, taken)
      decreases |taken| - counter
    {
      TakenBound(stamp, taken, counter);
      name := FileName(stamp, counter);
      if name !in taken {
        return;
      }
      TakenExtend(stamp, taken, counter);
      counter := counter + 1;
    }
  }

  // ---------------------------------------------------------------------
  // Statistics
  // ---------------------------------------------------------------------

  /** The file sizes recorded in the metadata. */
  function Sizes(meta: map<string, FileMetadata>): (r: map<string, nat>)
    ensures r.Keys == meta.Keys
  {
    map f | f in meta :: meta[f].file_size
  }

  /** `oldest` is the earliest creation time among the files seen so far. */
  predicate IsOldest(meta: map<string, FileMetadata>, seen: seq<string>, oldest: Option<int>)
    requires forall f :: f in seen ==> f in meta
  {
    (oldest.None? <==> |seen| == 0)
    && (oldest.Some? ==> (exists f :: f in seen && meta[f].created_at == oldest.value)
                         && forall f :: f in seen ==> oldest.value <= meta[f].created_at)
  }

  /** `newest` is the latest modification time among the files seen so far. */
  predicate IsNewest(meta: map<string, FileMetadata>, seen: seq<string>, newest: Option<int>)
    requires forall f :: f in seen ==> f in meta
  {
    (newest.None? <==> |seen| == 0)
    && (newest.Some? ==> (exists f :: f in seen && meta[f].modified_at == newest.value)
                         && forall f :: f in seen ==> meta[f].modified_at <= newest.value)
  }

  lemma OldestStep(meta: map<string, FileMetadata>, seen: seq<string>, f: string, oldest: Option<int>)
    requires f in meta && (forall g :: g in seen ==> g in meta) && IsOldest(meta, seen, oldest)
    ensures IsOldest(meta, seen + [f],
                     if oldest.None? || meta[f].created_at < oldest.value then Some(meta[f].created_at) else oldest)
  {
    if oldest.Some? && meta[f].created_at >= oldest.value {
      var g :| g in seen && meta[g].created_at == oldest.value;
      assert g in seen + [f];
    }
  }

  lemma NewestStep(meta: map<string, FileMetadata>, seen: seq<string>, f: string, newest: Option<int>)
    requires f in meta && (forall g :: g in seen ==> g in meta) && IsNewest(meta, seen, newest)
    ensures IsNewest(meta, seen + [f],
                     if newest.None? || meta[f].modified_at > newest.value then Some(meta[f].modified_at) else newest)
  {
    if newest.Some? && meta[f].modified_at <= newest.value {
      var g :| g in seen && meta[g].modified_at == newest.value;
      assert g in seen + [f];
    }
  }

  /** The loop of `calculate_stats` over the file metadata. */
  method ScanFiles(meta: map<string, FileMetadata>, order: seq<string>)
    returns (total_size: nat, oldest: Option<int>, newest: Option<int>)
    requires forall f :: f in order ==> f in meta
    ensures total_size == SeqSum(Sizes(meta), order)
    ensures IsOldest(meta, order, oldest) && IsNewest(meta, order, newest)
  {
    total_size := 0;
    oldest := None;
    newest := None;
    for i := 0 to |order|
      invariant total_size == SeqSum(Sizes(meta), order[..i])
      invariant IsOldest(meta, order[..i], oldest)
      invariant IsNewest(meta, order[..i], newest)
    {
      var f := order[i];
      var m := meta[f];
      assert order[..i + 1] == order[..i] + [f];
      assert order[..i + 1][..i] == order[..i];
      total_size := total_size + m.file_size;
      OldestStep(meta, order[..i], f, oldest);
      NewestStep(meta, order[..i], f, newest);
      if oldest.None? || m.created_at < oldest.value {
        oldest := Some(m.created_at);
      }
      if newest.None? || m.modified_at > newest.value {
        newest := Some(m.modified_at);
      }
    }
    assert order[..|order|] == order;
  }

  /**
   * `calculate_stats`: the transcript count is the number of located ids,
   * the size the sum of the file sizes, the oldest and newest times the
   * extreme creation and modification times, and the average length the
   * size per transcript (0 with none).
   */
  method CalculateStats(ix: TranscriptIndex, order: seq<string>) returns (s: StorageStats)
    requires IsOrderOf(order, ix.file_metadata.Keys)
    ensures s.total_transcripts == |ix.transcript_locations| && s.total_words == 0
    ensures s.storage_size_bytes == MapSum(Sizes(ix.file_metadata))
    ensures IsOldest(ix.file_metadata, order, s.oldest_transcript)
    ensures IsNewest(ix.file_metadata, order, s.newest_transcript)
    ensures s.average_length == if s.total_transcripts > 0 then s.storage_size_bytes as real / s.total_transcripts as real
                                else 0.0
  {
    var meta := ix.file_metadata;
    var total_size, oldest, newest := ScanFiles(meta, order);
    SeqSumAll(Sizes(meta), order);
    var total := |ix.transcript_locations|;
    var average := if total > 0 then total_size as real / total as real else 0.0;
    s := StorageStats(total, total_size, 0, average, oldest, newest);
  }

  // ---------------------------------------------------------------------
  // Index verification
  // ---------------------------------------------------------------------

  /**
   * The index after `verify_index`: metadata of files missing from the
   * directory dropped, and with it every location in such a file.
   */
  function Verified(ix: TranscriptIndex, present: set<string>): TranscriptIndex
  {
    var missing := set f | f in ix.file_metadata && f !in present;
    ix.(file_metadata := map f | f in ix.file_metadata && f !in missing :: ix.file_metadata[f],
        transcript_locations := map id | id in ix.transcript_locations && ix.transcript_locations[id].file_name !in missing
                                  :: ix.transcript_locations[id])
  }

  /**
   * After verification every indexed file is present, no location points
   * into an indexed file that was missing, and what concerns present files
   * is unchanged.
   */
  lemma VerifiedSpec(ix: TranscriptIndex, present: set<string>)
    ensures var v := Verified(ix, present);
      (forall f :: f in v.file_metadata <==> f in ix.file_metadata && f in present)
      && (forall f :: f in v.file_metadata ==> v.file_metadata[f] == ix.file_metadata[f])
      && (forall id :: id in v.transcript_locations <==>
            id in ix.transcript_locations
            && (ix.transcript_locations[id].file_name in present
                || ix.transcript_locations[id].file_name !in ix.file_metadata))
      && (forall id :: id in v.transcript_locations ==> v.transcript_locations[id] == ix.transcript_locations[id])
      && v.last_updated == ix.last_updated
  {
  }

  /** The indexed names, in order, that are missing from the directory. */
  function Missing(names: seq<string>, present: set<string>): (r: seq<string>)
    ensures forall f :: f in r <==> f in names && f !in present
  {
    if |names| == 0 then []
    else Missing(names[..|names| - 1], present) + (if names[|names| - 1] in present then [] else [names[|names| - 1]])
  }

  /** The metadata without the named files. */
  function DropMeta(meta: map<string, FileMetadata>, names: seq<string>): map<string, FileMetadata>
  {
    map f | f in meta && f !in names :: meta[f]
  }

  /** The locations outside the named files. */
  function DropLocations(locations: map<TranscriptId, FileLocation>, names: seq<string>)
    : map<TranscriptId, FileLocation>
  {
    map id | id in locations && locations[id].file_name !in names :: locations[id]
  }

  /**
   * `verify_index`: collect the indexed files that are missing, then for
   * each remove its metadata and retain only the locations in other files.
   */
  method VerifyIndex(ix: TranscriptIndex, present: set<string>) returns (r: TranscriptIndex)
    ensures r == Verified(ix, present)
  {
    var names := Enumerate(ix.file_metadata.Keys);
    var corrupted := CollectMissing(names, present);
    var meta, locations := DropFiles(ix.file_metadata, ix.transcript_locations, corrupted);
    var missing := set f | f in ix.file_metadata && f !in present;
    assert forall f :: f in corrupted <==> f in missing;
    assert meta == map f | f in ix.file_metadata && f !in missing :: ix.file_metadata[f];
    r := ix.(file_metadata := meta, transcript_locations := locations);
  }

  /** The first loop of `verify_index`: the listed files missing from the directory. */
  method CollectMissing(names: seq<string>, present: set<string>) returns (corrupted: seq<string>)
    ensures corrupted == Missing(names, present)
  {
    corrupted := [];
    for i := 0 to |names|
      invariant corrupted == Missing(names[..i], present)
    {
      assert names[..i + 1][..i] == names[..i];
      if names[i] !in present {
        corrupted := corrupted + [names[i]];
      }
    }
    assert names[..|names|] == names;
  }

  /** The second loop of `verify_index`: drop each file's metadata and the locations in it. */
  method DropFiles(meta0: map<string, FileMetadata>, locations0: map<TranscriptId, FileLocation>,
                   corrupted: seq<string>)
    returns (meta: map<string, FileMetadata>, locations: map<TranscriptId, FileLocation>)
    ensures meta == DropMeta(meta0, corrupted) && locations == DropLocations(locations0, corrupted)
  {
    meta, locations := meta0, locations0;
    for j := 0 to |corrupted|
      invariant meta == DropMeta(meta0, corrupted[..j])
      invariant locations == DropLocations(locations0, corrupted[..j])
    {
      var name := corrupted[j];
      assert forall f :: f in corrupted[..j + 1] <==> f in corrupted[..j] || f == name by {
        assert corrupted[..j + 1] == corrupted[..j] + [name];
      }
      meta := map f | f in meta && f != name :: meta[f];
      locations := map id | id in locations && locations[id].file_name != name :: locations[id];
    }
    assert corrupted[..|corrupted|] == corrupted;
  }

  // ---------------------------------------------------------------------
  // Lookups, search and removal inside a file
  // ---------------------------------------------------------------------

  /** The first transcript in a file with the given id. */
  function FindId(ts: seq<TranscriptEntry>, id: TranscriptId): (r: Option<TranscriptEntry>)
    ensures r.Some? ==> r.value.id == id && r.value in ts
    ensures r.None? <==> forall i :: 0 <= i < |ts| ==> ts[i].id != id
  {
    if |ts| == 0 then None else if ts[0].id == id then Some(ts[0]) else FindId(ts[1..], id)
  }

  /** No transcript in the file has the id. */
  predicate NoId(ts: seq<TranscriptEntry>, id: TranscriptId)
  {
    forall i :: 0 <= i < |ts| ==> ts[i].id != id
  }

  /** An entry appended to a file without its id is what a lookup of its id finds. */
  lemma FindAppended(ts: seq<TranscriptEntry>, e: TranscriptEntry)
    requires NoId(ts, e.id)
    ensures FindId(ts + [e], e.id) == Some(e)
  {
    if |ts| > 0 {
      assert (ts + [e])[1..] == ts[1..] + [e];
      FindAppended(ts[1..], e);
    }
  }

  /** `retain(|t| t.id != id)`. */
  function RemoveId(ts: seq<TranscriptEntry>, id: TranscriptId): (r: seq<TranscriptEntry>)
    ensures NoId(r, id)
    ensures forall t :: t in r <==> t in ts && t.id != id
    ensures |r| <= |ts|
  {
    if |ts| == 0 then []
    else (if ts[0].id == id then [] else [ts[0]]) + RemoveId(ts[1..], id)
  }

  /**
   * The filter of `search_transcripts`: a case-insensitive query
   * substring, inclusive date and confidence ranges, every requested tag,
   * and equal session and language, each only when requested.
   */
  predicate Matches(c: SearchCriteria, t: TranscriptEntry)
  {
    (c.query.None? || Contains(ToLower(t.text), ToLower(c.query.value)))
    && (c.date_range.None? || (c.date_range.value.0 <= t.timestamp && t.timestamp <= c.date_range.value.1))
    && (c.confidence_range.None?
        || (c.confidence_range.value.0 <= t.confidence && t.confidence <= c.confidence_range.value.1))
    && (forall tag :: tag in c.tags ==> tag in t.tags)
    && (c.session_id.None? || t.session_id == Some(c.session_id.value))
    && (c.language.None? || t.language == Some(c.language.value))
  }

  /** The matching transcripts of a file, in order. */
  function FilterEntries(ts: seq<TranscriptEntry>, c: SearchCriteria): seq<TranscriptEntry>
  {
    if |ts| == 0 then []
    else FilterEntries(ts[..|ts| - 1], c) + (if Matches(c, ts[|ts| - 1]) then [ts[|ts| - 1]] else [])
  }

  /** A transcript is kept exactly when it matches, and the kept ones are in order. */
  lemma {:induction false} FilterEntriesSpec(ts: seq<TranscriptEntry>, c: SearchCriteria)
    ensures forall t :: t in FilterEntries(ts, c) <==> t in ts && Matches(c, t)
    ensures |FilterEntries(ts, c)| <= |ts|
  {
    if |ts| > 0 {
      var init := ts[..|ts| - 1];
      FilterEntriesSpec(init, c);
      assert ts == init + [ts[|ts| - 1]];
    }
  }

  /** Filtering never adds occurrences. */
  lemma {:induction false} FilterEntriesCount(ts: seq<TranscriptEntry>, c: SearchCriteria, x: TranscriptEntry)
    ensures Count(FilterEntries(ts, c), x) <= Count(ts, x)
  {
    if |ts| > 0 {
      var init, last := ts[..|ts| - 1], ts[|ts| - 1];
      FilterEntriesCount(init, c, x);
      assert ts == init + [last];
      CountSnoc(init, last, x);
      CountSnoc(FilterEntries(init, c), last, x);
      assert FilterEntries(ts, c) == FilterEntries(init, c) + (if Matches(c, last) then [last] else []);
      if !Matches(c, last) {
        assert FilterEntries(ts, c) == FilterEntries(init, c);
      }
    }
  }

  /** Counting over one more element at the end. */
  lemma {:induction false} CountSnoc(s: seq<TranscriptEntry>, y: TranscriptEntry, x: TranscriptEntry)
    ensures Count(s + [y], x) == Count(s, x) + (if y == x then 1 else 0)
  {
    if |s| == 0 {
      assert [y][1..] == [];
    } else {
      assert (s + [y])[1..] == s[1..] + [y];
      CountSnoc(s[1..], y, x);
    }
  }

  /** The matches of every listed file in listing order, or the first file that cannot be loaded. */
  function Collect(files: map<string, StorageFile>, order: seq<string>, c: SearchCriteria)
    : (r: Result<seq<TranscriptEntry>, TranscriptError>)
    ensures r.Ok? <==> forall f :: f in order ==> f in files
  {
    if |order| == 0 then Ok([])
    else
      var last := order[|order| - 1];
      var prev := Collect(files, order[..|order| - 1], c);
      assert forall f :: f in order <==> f in order[..|order| - 1] || f == last by {
        assert order == order[..|order| - 1] + [last];
      }
      if prev.Err? then prev
      else if last !in files then Err(StorageError("Failed to open storage file " + last))
      else Ok(prev.value + FilterEntries(files[last].transcripts, c))
  }

  /** Every collected transcript matches and comes from a listed file, and every match is collected. */
  lemma {:induction false} CollectSpec(files: map<string, StorageFile>, order: seq<string>, c: SearchCriteria,
                                       t: TranscriptEntry)
    requires Collect(files, order, c).Ok?
    ensures t in Collect(files, order, c).value <==>
            Matches(c, t) && exists f :: f in order && t in files[f].transcripts
  {
    if |order| > 0 {
      var last, init := order[|order| - 1], order[..|order| - 1];
      assert order == init + [last];
      CollectSpec(files, init, c, t);
      FilterEntriesSpec(files[last].transcripts, c);
      if Matches(c, t) && exists f :: f in order && t in files[f].transcripts {
        var f :| f in order && t in files[f].transcripts;
        if f != last {
          assert f in init;
        }
      }
    }
  }

  /** `search_transcripts`' result: the collected matches truncated to the limit. */
  function SearchOf(files: map<string, StorageFile>, order: seq<string>, c: SearchCriteria)
    : Result<seq<TranscriptEntry>, TranscriptError>
  {
    var all := Collect(files, order, c);
    if all.Err? then all
    else if c.limit.Some? then Ok(Take(all.value, c.limit.value))
    else all
  }

  /**
   * Search only ever drops transcripts through the filter and the limit:
   * the results match, come from the listed files and number at most the
   * limit; without a limit every match in a listed file is returned.
   */
  lemma SearchSpec(files: map<string, StorageFile>, order: seq<string>, c: SearchCriteria, t: TranscriptEntry)
    requires SearchOf(files, order, c).Ok?
    ensures t in SearchOf(files, order, c).value ==>
            Matches(c, t) && exists f :: f in order && t in files[f].transcripts
    ensures c.limit.Some? ==> |SearchOf(files, order, c).value| <= c.limit.value
    ensures c.limit.None? ==>
            (t in SearchOf(files, order, c).value <==>
             Matches(c, t) && exists f :: f in order && t in files[f].transcripts)
    ensures SearchOf(files, order, c).value == Collect(files, order, c).value[..|SearchOf(files, order, c).value|]
  {
    CollectSpec(files, order, c, t);
  }

  // ---------------------------------------------------------------------
  // Storing
  // ---------------------------------------------------------------------

  /** A file `find_available_file` may return: an indexed file below the per-file maximum. */
  predicate Available(meta: map<string, FileMetadata>, f: string, max: nat)
  {
    f in meta && meta[f].transcript_count < max
  }

  /**
   * The file `store_transcript` writes to: some available file when there
   * is one (the map's iteration order decides which), otherwise the next
   * free name.
   */
  predicate TargetFile(meta: map<string, FileMetadata>, f: string, max: nat, stamp: string)
  {
    Available(meta, f, max)
    || ((forall g :: g in meta ==> meta[g].transcript_count >= max) && f == NextName(stamp, meta.Keys))
  }

  /** The contents of the target file after the push: the loaded file, or a fresh version-1.0 file. */
  function Appended(files: map<string, StorageFile>, meta: map<string, FileMetadata>, f: string,
                    entry: TranscriptEntry, now: int): StorageFile
    requires f in meta ==> f in files
  {
    if f in meta then files[f].(transcripts := files[f].transcripts + [entry])
    else StorageFile("1.0", now, [entry])
  }

  /** `save_storage_file`'s metadata: the count, the size, the file's creation time and now. */
  function MetadataOf(codec: Codec, sf: StorageFile, now: int): (m: FileMetadata)
    ensures m.transcript_count == |sf.transcripts| && m.created_at == sf.created_at && m.modified_at == now
  {
    FileMetadata(|sf.transcripts|, codec.file_size(sf), sf.created_at, now)
  }

  /** Whether any stored file holds a transcript with the id. */
  predicate Unseen(files: map<string, StorageFile>, id: TranscriptId)
  {
    forall f :: f in files ==> NoId(files[f].transcripts, id)
  }

  class FileTranscriptStorage {
    const config: FileStorageConfig
    const codec: Codec
    /** The storage directory: file name to contents. */
    var files: map<string, StorageFile>
    var index: TranscriptIndex
    var stats: StorageStats

    /** The count never falls below the number of located ids, so deleting one never underflows. */
    predicate Valid()
      reads this
    {
      stats.total_transcripts >= |index.transcript_locations|
    }

    /** Every indexed file is in the directory, so loading one never fails. */
    predicate Consistent()
      reads this
    {
      index.file_metadata.Keys <= files.Keys
    }

    /**
     * `new`: the saved index when there is one, else an empty one; the
     * statistics computed from it; then the index verified against the
     * directory.
     */
    constructor (config: FileStorageConfig, codec: Codec, files: map<string, StorageFile>,
                 saved: Option<TranscriptIndex>, now: int)
      ensures Valid() && Consistent()
      ensures this.config == config && this.codec == codec && this.files == files
      ensures var loaded := if saved.Some? then saved.value else TranscriptIndex(map[], map[], now);
        index == Verified(loaded, files.Keys) && stats.total_transcripts == |loaded.transcript_locations|
    {
      this.config := config;
      this.codec := codec;
      this.files := files;
      var loaded := if saved.Some? then saved.value else TranscriptIndex(map[], map[], now);
      var order := Enumerate(loaded.file_metadata.Keys);
      var s := CalculateStats(loaded, order);
      var verified := VerifyIndex(loaded, files.Keys);
      assert verified.transcript_locations.Keys <= loaded.transcript_locations.Keys;
      SubsetCard(verified.transcript_locations.Keys, loaded.transcript_locations.Keys);
      VerifiedSpec(loaded, files.Keys);
      stats := s;
      index := verified;
    }

    /** `find_available_file`: some indexed file below the per-file maximum, if any. */
    method FindAvailableFile() returns (r: Option<string>)
      ensures r.Some? ==> Available(index.file_metadata, r.value, config.max_transcripts_per_file)
      ensures r.None? ==> forall g :: g in index.file_metadata ==>
                            index.file_metadata[g].transcript_count >= config.max_transcripts_per_file
    {
      var meta := index.file_metadata;
      if exists f :: f in meta && meta[f].transcript_count < config.max_transcripts_per_file {
        var f :| f in meta && meta[f].transcript_count < config.max_transcripts_per_file;
        r := Some(f);
      } else {
        r := None;
      }
    }

    /**
     * `store_transcript`: push the entry onto the chosen file (loading it
     * when indexed, else starting a fresh one), save it and its metadata,
     * record the id's location, and count it with its encoded length. A
     * chosen file that cannot be loaded is an error that changes nothing.
     */
    method StoreTranscript(entry: TranscriptEntry, now: int, stamp: string)
      returns (r: Result<TranscriptId, TranscriptError>)
      requires Valid()
      modifies this
      ensures Valid()
      ensures r.Ok? ==> r.value == entry.id && entry.id in index.transcript_locations
      ensures r.Ok? ==>
        var f := index.transcript_locations[entry.id].file_name;
        var meta := old(index.file_metadata);
        TargetFile(meta, f, config.max_transcripts_per_file, stamp) && (f in meta ==> f in old(files))
        && files == old(files)[f := Appended(old(files), meta, f, entry, now)]
        && index == TranscriptIndex(old(index.transcript_locations)[entry.id := FileLocation(f, None, None)],
                                    meta[f := MetadataOf(codec, files[f], now)], now)
        && stats == old(stats).(total_transcripts := old(stats.total_transcripts) + 1,
                                storage_size_bytes := old(stats.storage_size_bytes) + |codec.encode(entry)|)
      ensures r.Ok? && Unseen(old(files), entry.id) ==> GetOf(files, index, entry.id) == Ok(Some(entry))
      ensures r.Err? ==> files == old(files) && index == old(index) && stats == old(stats)
      ensures r.Err? ==> r.error.StorageError?
      ensures old(Consistent()) ==> r.Ok? && Consistent()
    {
      var available := FindAvailableFile();
      var name: string;
      if available.Some? {
        name := available.value;
      } else {
        name := GetNextFileName(stamp, index.file_metadata.Keys);
      }
      var meta := index.file_metadata;
      if name in meta && name !in files {
        return Err(StorageError("Failed to open storage file " + name));
      }
      var sf := Appended(files, meta, name, entry, now);
      files := files[name := sf];
      var locations := index.transcript_locations[entry.id := FileLocation(name, None, None)];
      SubsetCard(index.transcript_locations.Keys, locations.Keys);
      assert locations.Keys == index.transcript_locations.Keys + {entry.id};
      index := TranscriptIndex(locations, meta[name := MetadataOf(codec, sf, now)], now);
      stats := stats.(total_transcripts := stats.total_transcripts + 1,
                      storage_size_bytes := stats.storage_size_bytes + |codec.encode(entry)|);
      if Unseen(old(files), entry.id) {
        if name in meta {
          FindAppended(old(files)[name].transcripts, entry);
        }
      }
      r := Ok(entry.id);
    }

    /**
     * `get_transcript`: the first transcript with the id in the file the
     * id is located in; none for an unlocated id; an error when that file
     * cannot be loaded.
     */
    method GetTranscript(id: TranscriptId) returns (r: Result<Option<TranscriptEntry>, TranscriptError>)
      ensures r == GetOf(files, index, id)
    {
      if id !in index.transcript_locations {
        return Ok(None);
      }
      var name := index.transcript_locations[id].file_name;
      if name !in files {
        return Err(StorageError("Failed to open storage file " + name));
      }
      var ts := files[name].transcripts;
      for i := 0 to |ts|
        invariant FindId(ts[i..], id) == FindId(ts, id)
      {
        assert ts[i..][1..] == ts[i + 1..];
        if ts[i].id == id {
          return Ok(Some(ts[i]));
        }
      }
      assert ts[|ts|..] == [];
      r := Ok(None);
    }

    /**
     * `search_transcripts`: every transcript of every indexed file, taken in
     * the metadata's iteration order `order`, that passes the filter, then
     * truncated to the limit.
     */
    method SearchTranscripts(c: SearchCriteria, order: seq<string>)
      returns (r: Result<seq<TranscriptEntry>, TranscriptError>)
      requires IsOrderOf(order, index.file_metadata.Keys)
      ensures r == SearchOf(files, order, c)
    {
      var results: seq<TranscriptEntry> := [];
      for i := 0 to |order|
        invariant Collect(files, order[..i], c) == Ok(results)
      {
        var name := order[i];
        assert order[..i + 1][..i] == order[..i];
        assert order[..i + 1][i] == name;
        if name !in files {
          assert Collect(files, order[..i + 1], c).Err?;
          CollectErrStays(files, order, c, i + 1);
          assert order[..|order|] == order;
          return Err(StorageError("Failed to open storage file " + name));
        }
        var ts := files[name].transcripts;
        var kept: seq<TranscriptEntry> := [];
        for j := 0 to |ts|
          invariant kept == FilterEntries(ts[..j], c)
        {
          assert ts[..j + 1][..j] == ts[..j];
          var matches := CheckCriteria(c, ts[j]);
          if matches {
            kept := kept + [ts[j]];
          }
        }
        assert ts[..|ts|] == ts;
        results := results + kept;
      }
      assert order[..|order|] == order;
      if c.limit.Some? {
        results := Take(results, c.limit.value);
      }
      r := Ok(results);
    }

    /** `delete_transcript` on a located id: unlocate it, then drop it from its file, save and uncount it. */
    method DeleteTranscript(id: TranscriptId, now: int) returns (r: Result<(), TranscriptError>)
      requires Valid()
      modifies this
      ensures Valid()
      ensures id !in old(index.transcript_locations) ==>
        r == Ok(()) && files == old(files) && index == old(index) && stats == old(stats)
      ensures id in old(index.transcript_locations) ==>
        var f := old(index.transcript_locations)[id].file_name;
        index.transcript_locations == old(index.transcript_locations) - {id}
        && (f !in old(files) ==>
              r.Err? && files == old(files) && stats == old(stats) && index.file_metadata == old(index.file_metadata))
        && (f in old(files) ==>
              var sf := old(files)[f].(transcripts := RemoveId(old(files)[f].transcripts, id));
              r == Ok(()) && files == old(files)[f := sf]
              && index == TranscriptIndex(old(index.transcript_locations) - {id},
                                          old(index.file_metadata)[f := MetadataOf(codec, sf, now)], now)
              && stats == old(stats).(total_transcripts := old(stats.total_transcripts) - 1))
    {
      if id !in index.transcript_locations {
        return Ok(());
      }
      var location := index.transcript_locations[id];
      var locations := index.transcript_locations - {id};
      assert index.transcript_locations.Keys == locations.Keys + {id};
      index := index.(transcript_locations := locations);
      var name := location.file_name;
      if name !in files {
        return Err(StorageError("Failed to open storage file " + name));
      }
      var sf := files[name].(transcripts := RemoveId(files[name].transcripts, id));
      files := files[name := sf];
      index := index.(file_metadata := index.file_metadata[name := MetadataOf(codec, sf, now)], last_updated := now);
      stats := stats.(total_transcripts := stats.total_transcripts - 1);
      r := Ok(());
    }

    /** `get_storage_stats`. */
    function GetStorageStats(): StorageStats
      reads this
    {
      stats
    }

    /**
     * `backup_transcripts`: a header line with the transcript count, then
     * every transcript of every indexed file (in the metadata's iteration
     * order `order`) encoded on its own line.
     */
    method BackupTranscripts(order: seq<string>, now: int) returns (r: Result<BackupResult, TranscriptError>)
      requires IsOrderOf(order, index.file_metadata.Keys)
      ensures r == BackupOf(codec, files, order, stats.total_transcripts, now)
    {
      var lines := [codec.header(stats.total_transcripts, now)];
      var count := 0;
      for i := 0 to |order|
        invariant Dump(codec, files, order[..i]).Ok?
        invariant lines == [codec.header(stats.total_transcripts, now)] + Dump(codec, files, order[..i]).value
        invariant count == |lines| - 1
      {
        var name := order[i];
        assert order[..i + 1][..i] == order[..i];
        assert order[..i + 1][i] == name;
        if name !in files {
          DumpErrStays(codec, files, order, i + 1);
          assert order[..|order|] == order;
          return Err(StorageError("Failed to open storage file " + name));
        }
        var ts := files[name].transcripts;
        for j := 0 to |ts|
          invariant lines == [codec.header(stats.total_transcripts, now)] + Dump(codec, files, order[..i]).value
                             + Encoded(codec, ts[..j])
          invariant count == |lines| - 1
        {
          assert ts[..j + 1][..j] == ts[..j];
          lines := lines + [codec.encode(ts[j])];
          count := count + 1;
        }
        assert ts[..|ts|] == ts;
      }
      assert order[..|order|] == order;
      r := Ok(BackupResult(count, lines));
    }

    /**
     * One line of `restore_transcripts`: blank lines are passed over, a line
     * that does not parse is an error, a located id is skipped, and any
     * other transcript is stored.
     */
    method RestoreLine(line: string, now: int, stamp: string) returns (step: RestoreStep)
      requires Valid()
      modifies this
      ensures Valid()
      ensures IsBlank(line) ==> step == Blank
      ensures !IsBlank(line) && codec.decode(line).None? ==> step.Failed? && step.error.SerializationError?
      ensures Repeats(codec, line, old(index.transcript_locations).Keys) ==> step == Skip
      ensures Decodes(codec, line) && !Repeats(codec, line, old(index.transcript_locations).Keys)
              ==> step == Restored || (step.Failed? && step.error.StorageError?)
      ensures step == Blank ==> IsBlank(line)
      ensures step == Skip ==> Repeats(codec, line, old(index.transcript_locations).Keys)
      ensures step == Restored ==> Decodes(codec, line) && !Repeats(codec, line, old(index.transcript_locations).Keys)
      ensures !step.Restored? ==> index.transcript_locations == old(index.transcript_locations) && stats == old(stats)
      ensures step.Restored? ==>
        index.transcript_locations.Keys == old(index.transcript_locations).Keys + {codec.decode(line).value.id}
        && stats.total_transcripts == old(stats.total_transcripts) + 1
      ensures old(Consistent()) ==> Consistent() && !(Decodes(codec, line) && step.Failed?)
    {
      if IsBlank(line) {
        return Blank;
      }
      var parsed := codec.decode(line);
      if parsed.None? {
        return Failed(SerializationError("invalid transcript line"));
      }
      var transcript := parsed.value;
      if transcript.id in index.transcript_locations {
        return Skip;
      }
      var stored := StoreTranscript(transcript, now, stamp);
      if stored.Err? {
        return Failed(stored.error);
      }
      step := Restored;
    }

    /** One turn of the restore loop, from the counts before line `i` to the counts after it. */
    method RestoreAt(body: seq<string>, i: nat, ghost known: set<TranscriptId>, restored: nat, skipped: nat,
                     now: int, stamp: string, ghost total: nat)
      returns (failure: Option<TranscriptError>, restored': nat, skipped': nat)
      requires Valid() && i < |body|
      requires restored + skipped == NonBlank(body[..i])
      requires stats.total_transcripts == total + restored
      requires index.transcript_locations.Keys == known + Seen(codec, body[..i])
      requires skipped == Skipped(codec, body[..i], known)
      modifies this
      ensures Valid()
      ensures failure.None? ==>
        && restored' + skipped' == NonBlank(body[..i + 1])
        && stats.total_transcripts == total + restored'
        && index.transcript_locations.Keys == known + Seen(codec, body[..i + 1])
        && skipped' == Skipped(codec, body[..i + 1], known)
      ensures old(Consistent()) ==> Consistent() && (failure.Some? ==> !Decodes(codec, body[i]) && !IsBlank(body[i]))
    {
      RestoreCountsStep(codec, body, i, known);
      var step := RestoreLine(body[i], now, stamp);
      failure, restored', skipped' := None, restored, skipped;
      match step
      case Failed(e) => failure := Some(e);
      case Blank =>
      case Skip =>
        skipped' := skipped + 1;
      case Restored =>
        restored' := restored + 1;
        UnionGrows(known, Seen(codec, body[..i]), codec.decode(body[i]).value.id);
    }

    /**
     * `restore_transcripts`: the header line must be JSON; every later
     * non-blank line is parsed, skipped and counted when its id is already
     * located, and otherwise stored and counted.
     */
    method RestoreTranscripts(lines: seq<string>, now: int, stamp: string)
      returns (r: Result<RestoreResult, TranscriptError>)
      requires Valid()
      modifies this
      ensures Valid()
      ensures r.Ok? ==> r.value.transcripts_restored + r.value.duplicates_skipped == NonBlank(Body(lines))
      ensures r.Ok? ==> stats.total_transcripts == old(stats.total_transcripts) + r.value.transcripts_restored
      ensures r.Ok? ==> index.transcript_locations.Keys == old(index.transcript_locations).Keys + Seen(codec, Body(lines))
      ensures r.Ok? ==> r.value.duplicates_skipped == Skipped(codec, Body(lines), old(index.transcript_locations).Keys)
      ensures old(Consistent()) && (|lines| == 0 || codec.is_json(lines[0])) && AllDecode(codec, Body(lines))
              ==> r.Ok? && Consistent()
    {
      if |lines| > 0 && !codec.is_json(lines[0]) {
        return Err(SerializationError("invalid backup header"));
      }
      var body := Body(lines);
      ghost var known := index.transcript_locations.Keys;
      var restored, skipped := 0, 0;
      for i := 0 to |body|
        invariant Valid()
        invariant restored + skipped == NonBlank(body[..i])
        invariant stats.total_transcripts == old(stats.total_transcripts) + restored
        invariant index.transcript_locations.Keys == known + Seen(codec, body[..i])
        invariant skipped == Skipped(codec, body[..i], known)
        invariant old(Consistent()) ==> Consistent()
      {
        var failure;
        failure, restored, skipped := RestoreAt(body, i, known, restored, skipped, now, stamp, old(stats.total_transcripts));
        if failure.Some? {
          return Err(failure.value);
        }
      }
      assert body[..|body|] == body;
      r := Ok(RestoreResult(restored, skipped));
    }
  }

  /** Adding one id to the restored ones adds it to the located ones. */
  lemma UnionGrows<T>(known: set<T>, seen: set<T>, x: T)
    ensures (known + seen) + {x} == known + (seen + {x})
  {
  }

  /** How the restore counts grow by one line. */
  lemma RestoreCountsStep(codec: Codec, body: seq<string>, i: nat, known: set<TranscriptId>)
    requires i < |body|
    ensures NonBlank(body[..i + 1]) == NonBlank(body[..i]) + (if IsBlank(body[i]) then 0 else 1)
    ensures Seen(codec, body[..i + 1])
            == Seen(codec, body[..i]) + (if Decodes(codec, body[i]) then {codec.decode(body[i]).value.id} else {})
    ensures Skipped(codec, body[..i + 1], known)
            == Skipped(codec, body[..i], known) + (if Repeats(codec, body[i], known + Seen(codec, body[..i])) then 1 else 0)
  {
    assert body[..i + 1][..i] == body[..i];
  }

  /** What the restore loop does with one line. */
  datatype RestoreStep = Blank | Skip | Restored | Failed(error: TranscriptError)

  /** `get_transcript` on a directory and an index. */
  function GetOf(files: map<string, StorageFile>, ix: TranscriptIndex, id: TranscriptId)
    : (r: Result<Option<TranscriptEntry>, TranscriptError>)
    ensures r.Ok? && r.value.Some? ==> r.value.value.id == id
    ensures id !in ix.transcript_locations ==> r == Ok(None)
  {
    if id !in ix.transcript_locations then Ok(None)
    else
      var name := ix.transcript_locations[id].file_name;
      if name !in files then Err(StorageError("Failed to open storage file " + name))
      else Ok(FindId(files[name].transcripts, id))
  }

  /** The per-transcript filter, evaluated as the search loop does: a flag cleared by each failed condition. */
  method CheckCriteria(c: SearchCriteria, t: TranscriptEntry) returns (matches: bool)
    ensures matches == Matches(c, t)
  {
    matches := true;
    if c.query.Some? && !Contains(ToLower(t.text), ToLower(c.query.value)) {
      matches := false;
    }
    if c.date_range.Some? && (t.timestamp < c.date_range.value.0 || t.timestamp > c.date_range.value.1) {
      matches := false;
    }
    if c.confidence_range.Some?
       && (t.confidence < c.confidence_range.value.0 || t.confidence > c.confidence_range.value.1) {
      matches := false;
    }
    if |c.tags| > 0 && !(forall tag :: tag in c.tags ==> tag in t.tags) {
      matches := false;
    }
    if c.session_id.Some? && t.session_id != Some(c.session_id.value) {
      matches := false;
    }
    if c.language.Some? && t.language != Some(c.language.value) {
      matches := false;
    }
  }

  /** Once a prefix of the listing fails to load, the whole listing does. */
  lemma {:induction false} CollectErrStays(files: map<string, StorageFile>, order: seq<string>, c: SearchCriteria,
                                           n: nat)
    requires n <= |order| && Collect(files, order[..n], c).Err?
    ensures Collect(files, order, c) == Collect(files, order[..n], c)
    decreases |order| - n
  {
    if n < |order| {
      assert order[..n + 1][..n] == order[..n];
      CollectErrStays(files, order, c, n + 1);
    } else {
      assert order[..n] == order;
    }
  }

  /** The encoded lines of some transcripts. */
  function Encoded(codec: Codec, ts: seq<TranscriptEntry>): (r: seq<string>)
    ensures |r| == |ts|
    ensures forall i :: 0 <= i < |ts| ==> r[i] == codec.encode(ts[i])
  {
    if |ts| == 0 then [] else Encoded(codec, ts[..|ts| - 1]) + [codec.encode(ts[|ts| - 1])]
  }

  /** The transcript lines of the listed files, in order, or the first file that cannot be loaded. */
  function Dump(codec: Codec, files: map<string, StorageFile>, order: seq<string>)
    : (r: Result<seq<string>, TranscriptError>)
  {
    if |order| == 0 then Ok([])
    else
      var last := order[|order| - 1];
      var prev := Dump(codec, files, order[..|order| - 1]);
      if prev.Err? then prev
      else if last !in files then Err(StorageError("Failed to open storage file " + last))
      else Ok(prev.value + Encoded(codec, files[last].transcripts))
  }

  lemma {:induction false} DumpErrStays(codec: Codec, files: map<string, StorageFile>, order: seq<string>, n: nat)
    requires n <= |order| && Dump(codec, files, order[..n]).Err?
    ensures Dump(codec, files, order) == Dump(codec, files, order[..n])
    decreases |order| - n
  {
    if n < |order| {
      assert order[..n + 1][..n] == order[..n];
      DumpErrStays(codec, files, order, n + 1);
    } else {
      assert order[..n] == order;
    }
  }

  /** The backup: the header, then every transcript line; the count is the number of transcript lines. */
  function BackupOf(codec: Codec, files: map<string, StorageFile>, order: seq<string>, total: nat, now: int)
    : Result<BackupResult, TranscriptError>
  {
    var dump := Dump(codec, files, order);
    if dump.Err? then Err(dump.error)
    else Ok(BackupResult(|dump.value|, [codec.header(total, now)] + dump.value))
  }

  /** A line that is empty once trimmed. */
  predicate IsBlank(line: string)
  {
    Trim(line) == ""
  }

  /** The lines after the header. */
  function Body(lines: seq<string>): seq<string>
  {
    if |lines| == 0 then [] else lines[1..]
  }

  /** The number of non-blank lines. */
  function NonBlank(lines: seq<string>): nat
  {
    if |lines| == 0 then 0 else NonBlank(lines[..|lines| - 1]) + (if IsBlank(lines[|lines| - 1]) then 0 else 1)
  }

  /** Every non-blank line parses as a transcript. */
  predicate AllDecode(codec: Codec, lines: seq<string>)
  {
    forall i :: 0 <= i < |lines| && !IsBlank(lines[i]) ==> codec.decode(lines[i]).Some?
  }

  /** A non-blank line that parses as a transcript. */
  predicate Decodes(codec: Codec, line: string)
  {
    !IsBlank(line) && codec.decode(line).Some?
  }

  /** A line whose transcript's id is among the known ones. */
  predicate Repeats(codec: Codec, line: string, known: set<TranscriptId>)
  {
    Decodes(codec, line) && codec.decode(line).value.id in known
  }

  /** The ids of the decodable non-blank lines. */
  function Seen(codec: Codec, lines: seq<string>): set<TranscriptId>
  {
    if |lines| == 0 then {}
    else
      var last := lines[|lines| - 1];
      Seen(codec, lines[..|lines| - 1]) + (if Decodes(codec, last) then {codec.decode(last).value.id} else {})
  }

  /** The decodable non-blank lines whose id is already known, or seen on an earlier line. */
  function Skipped(codec: Codec, lines: seq<string>, known: set<TranscriptId>): nat
  {
    if |lines| == 0 then 0
    else
      var last, init := lines[|lines| - 1], lines[..|lines| - 1];
      Skipped(codec, init, known) + (if Repeats(codec, last, known + Seen(codec, init)) then 1 else 0)
  }

  /** The ids of some transcripts. */
  function Ids(ts: seq<TranscriptEntry>): set<TranscriptId>
  {
    set i | 0 <= i < |ts| :: ts[i].id
  }

  /**
   * Restoring the lines of a backup: when the codec reads back what it
   * wrote, and the ids are distinct and not yet located, every line parses,
   * every transcript is restored under its id and none is skipped.
   */
  lemma {:induction false} RestoreOfBackup(codec: Codec, ts: seq<TranscriptEntry>, known: set<TranscriptId>)
    requires forall i :: 0 <= i < |ts| ==> codec.decode(codec.encode(ts[i])) == Some(ts[i])
    requires forall i :: 0 <= i < |ts| ==> !IsBlank(codec.encode(ts[i]))
    requires NewIds(ts, known)
    ensures AllDecode(codec, Encoded(codec, ts))
    ensures NonBlank(Encoded(codec, ts)) == |ts|
    ensures Seen(codec, Encoded(codec, ts)) == Ids(ts)
    ensures Skipped(codec, Encoded(codec, ts), known) == 0
  {
    NonBlankEncoded(codec, ts);
    SeenEncoded(codec, ts);
    SkippedEncoded(codec, ts, known);
  }

  lemma EncodedSnoc(codec: Codec, ts: seq<TranscriptEntry>)
    requires |ts| > 0
    ensures Encoded(codec, ts)[..|ts| - 1] == Encoded(codec, ts[..|ts| - 1])
    ensures Encoded(codec, ts)[|ts| - 1] == codec.encode(ts[|ts| - 1])
  {
  }

  lemma {:induction false} NonBlankEncoded(codec: Codec, ts: seq<TranscriptEntry>)
    requires forall i :: 0 <= i < |ts| ==> !IsBlank(codec.encode(ts[i]))
    ensures NonBlank(Encoded(codec, ts)) == |ts|
  {
    if |ts| > 0 {
      EncodedSnoc(codec, ts);
      NonBlankEncoded(codec, ts[..|ts| - 1]);
    }
  }

  lemma {:induction false} SeenEncoded(codec: Codec, ts: seq<TranscriptEntry>)
    requires forall i :: 0 <= i < |ts| ==> codec.decode(codec.encode(ts[i])) == Some(ts[i])
    requires forall i :: 0 <= i < |ts| ==> !IsBlank(codec.encode(ts[i]))
    ensures Seen(codec, Encoded(codec, ts)) == Ids(ts)
  {
    if |ts| > 0 {
      var n := |ts| - 1;
      EncodedSnoc(codec, ts);
      SeenEncoded(codec, ts[..n]);
      IdsSnoc(ts);
    }
  }

  lemma {:induction false} SkippedEncoded(codec: Codec, ts: seq<TranscriptEntry>, known: set<TranscriptId>)
    requires forall i :: 0 <= i < |ts| ==> codec.decode(codec.encode(ts[i])) == Some(ts[i])
    requires forall i :: 0 <= i < |ts| ==> !IsBlank(codec.encode(ts[i]))
    requires NewIds(ts, known)
    ensures Skipped(codec, Encoded(codec, ts), known) == 0
  {
    if |ts| > 0 {
      var n := |ts| - 1;
      var init, e := ts[..n], Encoded(codec, ts);
      EncodedSnoc(codec, ts);
      SkippedEncoded(codec, init, known);
      SeenEncoded(codec, init);
      assert !Repeats(codec, e[n], known + Seen(codec, e[..n]));
    }
  }

  /** Each id is neither known nor the id of an earlier transcript. */
  predicate NewIds(ts: seq<TranscriptEntry>, known: set<TranscriptId>)
  {
    |ts| == 0 || (NewIds(ts[..|ts| - 1], known) && ts[|ts| - 1].id !in known + Ids(ts[..|ts| - 1]))
  }

  lemma IdsSnoc(ts: seq<TranscriptEntry>)
    requires |ts| > 0
    ensures Ids(ts) == Ids(ts[..|ts| - 1]) + {ts[|ts| - 1].id}
  {
    assert forall i :: 0 <= i < |ts| - 1 ==> ts[..|ts| - 1][i] == ts[i];
  }

  // ---------------------------------------------------------------------
  // Scenarios
  // ---------------------------------------------------------------------

  /** The transcripts the storage scenarios store: tagged "test", in English, from a test model. */
  function TestTranscript(id: TranscriptId, text: string, confidence: real, now: int): TranscriptEntry
  {
    TranscriptEntry(id, now, text, confidence, "test-model", 1000, None, None, 0, ["test"],
                    TranscriptMetadata(LiveAudio, now, now, [], confidence), Some("en"), None)
  }

  /** A storage opened on an empty directory with no saved index counts no transcripts. */
  method StorageCreation(codec: Codec, now: int) returns (total: nat)
    ensures total == 0
  {
    var storage := new FileTranscriptStorage(DefaultFileStorageConfig(), codec, map[], None, now);
    total := storage.GetStorageStats().total_transcripts;
  }

  /** A stored transcript is returned under its id and read back with its text and confidence. */
  method StoreAndRetrieve(codec: Codec, id: TranscriptId, now: int, stamp: string, text: string)
    returns (stored: Result<TranscriptId, TranscriptError>, retrieved: Result<Option<TranscriptEntry>, TranscriptError>)
    requires text == "Hello, world!"
    ensures stored == Ok(id)
    ensures retrieved.Ok? && retrieved.value.Some? && retrieved.value.value.id == id
    ensures retrieved.value.value.text == "Hello, world!" && retrieved.value.value.confidence == 0.95
  {
    var storage := new FileTranscriptStorage(DefaultFileStorageConfig(), codec, map[], None, now);
    var t := TestTranscript(id, text, 0.95, now);
    stored := storage.StoreTranscript(t, now, stamp);
    retrieved := storage.GetTranscript(id);
  }

  /**
   * Three transcripts stored into a fresh storage all land in its first
   * file; searching for "hello" finds the two greetings, and the confidence
   * range [0.90, 1.0] finds the two confident ones.
   */
  method SearchScenario(codec: Codec, now: int, stamp: string, a: string, b: string, c: string)
    returns (byQuery: Result<seq<TranscriptEntry>, TranscriptError>,
             byConfidence: Result<seq<TranscriptEntry>, TranscriptError>)
    requires a == "Hello, world!" && b == "Goodbye, world!" && c == "Hello, universe!"
    ensures byQuery.Ok? && |byQuery.value| == 2
    ensures byConfidence.Ok? && |byConfidence.value| == 2
  {
    var storage := new FileTranscriptStorage(DefaultFileStorageConfig(), codec, map[], None, now);
    var t1, t2, t3 := TestTranscript(1, a, 0.95, now), TestTranscript(2, b, 0.85, now), TestTranscript(3, c, 0.90, now);
    VerifiedSpec(TranscriptIndex(map[], map[], now), {});
    var f := StoreIntoEmpty(storage, t1, now, stamp);
    StoreIntoFirst(storage, t2, f, now, stamp);
    StoreIntoFirst(storage, t3, f, now, stamp);
    assert storage.files[f].transcripts == [t1, t2, t3];
    var order := [f];
    var query := DefaultSearchCriteria().(query := Some("hello"));
    GreetingsMatch(query, t1, t2, t3);
    CollectOne(storage.files, f, query);
    byQuery := storage.SearchTranscripts(query, order);
    var confident := DefaultSearchCriteria().(confidence_range := Some((0.90, 1.0)));
    ConfidentMatch(confident, t1, t2, t3);
    CollectOne(storage.files, f, confident);
    byConfidence := storage.SearchTranscripts(confident, order);
  }

  /** With no indexed file, a store starts a file holding just the transcript. */
  method StoreIntoEmpty(storage: FileTranscriptStorage, t: TranscriptEntry, now: int, stamp: string) returns (f: string)
    requires storage.Valid() && storage.Consistent() && storage.index.file_metadata.Keys == {}
    requires storage.config.max_transcripts_per_file > 1
    modifies storage
    ensures storage.Valid() && storage.Consistent() && storage.index.file_metadata.Keys == {f}
    ensures storage.files[f].transcripts == [t]
    ensures storage.index.file_metadata[f].transcript_count == 1
  {
    var r := storage.StoreTranscript(t, now, stamp);
    f := storage.index.transcript_locations[t.id].file_name;
  }

  /** With one indexed file below the maximum, the next store appends to it. */
  method StoreIntoFirst(storage: FileTranscriptStorage, t: TranscriptEntry, f: string, now: int, stamp: string)
    requires storage.Valid() && storage.Consistent() && storage.index.file_metadata.Keys == {f}
    requires storage.index.file_metadata[f].transcript_count < storage.config.max_transcripts_per_file
    requires storage.index.file_metadata[f].transcript_count == |storage.files[f].transcripts|
    modifies storage
    ensures storage.Valid() && storage.Consistent() && storage.index.file_metadata.Keys == {f}
    ensures storage.files[f].transcripts == old(storage.files[f].transcripts) + [t]
    ensures storage.index.file_metadata[f].transcript_count == |storage.files[f].transcripts|
  {
    var r := storage.StoreTranscript(t, now, stamp);
  }

  lemma CollectOne(files: map<string, StorageFile>, f: string, c: SearchCriteria)
    requires f in files
    ensures Collect(files, [f], c) == Ok(FilterEntries(files[f].transcripts, c))
  {
    var none: seq<string> := [];
    assert [f][..0] == none;
    assert Collect(files, none, c) == Ok([]);
    var found: seq<TranscriptEntry> := [];
    assert Collect(files, [f], c) == Ok(found + FilterEntries(files[f].transcripts, c));
    assert found + FilterEntries(files[f].transcripts, c) == FilterEntries(files[f].transcripts, c);
  }

  /** The range [0.90, 1.0] holds the confidences 0.95 and 0.90 but not 0.85. */
  lemma ConfidentMatch(c: SearchCriteria, t1: TranscriptEntry, t2: TranscriptEntry, t3: TranscriptEntry)
    requires c == DefaultSearchCriteria().(confidence_range := Some((0.90, 1.0)))
    requires t1.confidence == 0.95 && t2.confidence == 0.85 && t3.confidence == 0.90
    ensures FilterEntries([t1, t2, t3], c) == [t1, t3]
  {
    FilterThree(t1, t2, t3, c);
  }

  /** The lowered query "hello" occurs in the two greetings and not in the farewell. */
  lemma GreetingsMatch(query: SearchCriteria, t1: TranscriptEntry, t2: TranscriptEntry, t3: TranscriptEntry)
    requires query == DefaultSearchCriteria().(query := Some("hello"))
    requires t1.text == "Hello, world!" && t2.text == "Goodbye, world!" && t3.text == "Hello, universe!"
    ensures Matches(query, t1) && !Matches(query, t2) && Matches(query, t3)
    ensures FilterEntries([t1, t2, t3], query) == [t1, t3]
  {
    assert ToLower("hello") == "hello";
    GreetingHasHello(t1.text);
    GreetingHasHello(t3.text);
    FarewellLacksHello(t2.text);
    FilterThree(t1, t2, t3, query);
  }

  lemma GreetingHasHello(text: string)
    requires |text| >= 5 && text[..5] == "Hello"
    ensures Contains(ToLower(text), "hello")
  {
    assert ToLower(text)[..5] == "hello";
    ContainsWitness(ToLower(text), "hello", 0);
  }

  lemma FarewellLacksHello(text: string)
    requires text == "Goodbye, world!"
    ensures !Contains(ToLower(text), "hello")
  {
    assert forall i :: 0 <= i < |text| ==> text[i] != 'h' && text[i] != 'H';
    NotContainsFirst(ToLower(text), "hello");
  }

  /** Filtering three transcripts keeps each one that matches, in order. */
  lemma FilterThree(t1: TranscriptEntry, t2: TranscriptEntry, t3: TranscriptEntry, c: SearchCriteria)
    ensures FilterEntries([t1, t2, t3], c)
            == (if Matches(c, t1) then [t1] else []) + (if Matches(c, t2) then [t2] else [])
               + (if Matches(c, t3) then [t3] else [])
  {
    var none: seq<TranscriptEntry> := [];
    assert [t1][..0] == none;
    assert FilterEntries([t1], c) == FilterEntries(none, c) + (if Matches(c, t1) then [t1] else []);
    assert [t1, t2][..1] == [t1];
    assert FilterEntries([t1, t2], c) == FilterEntries([t1], c) + (if Matches(c, t2) then [t2] else []);
    assert [t1, t2, t3][..2] == [t1, t2];
    assert FilterEntries([t1, t2, t3], c) == FilterEntries([t1, t2], c) + (if Matches(c, t3) then [t3] else []);
  }

  /**
   * Two transcripts backed up from one storage and restored into a fresh
   * one: both are backed up, both restored, none skipped, and the new
   * storage counts two.
   */
  method BackupAndRestore(codec: Codec, now: int, stamp: string, a: string, b: string)
    returns (backup: Result<BackupResult, TranscriptError>, restore: Result<RestoreResult, TranscriptError>,
             total: nat)
    requires a == "Test transcript 1" && b == "Test transcript 2"
    requires forall t: TranscriptEntry :: codec.decode(codec.encode(t)) == Some(t)
    requires forall t: TranscriptEntry :: !IsBlank(codec.encode(t))
    requires forall n: nat :: codec.is_json(codec.header(n, now))
    ensures backup.Ok? && backup.value.transcripts_backed_up == 2
    ensures restore == Ok(RestoreResult(2, 0)) && total == 2
  {
    var t1, t2 := TestTranscript(1, a, 0.95, now), TestTranscript(2, b, 0.85, now);
    backup := BackupOfTwo(codec, now, stamp, t1, t2);
    assert [t1, t2][..1] == [t1] && Ids([t1]) == {1};
    assert NewIds([t1, t2], {});
    restore, total := RestoreIntoEmpty(codec, backup.value.lines, [t1, t2], now, stamp);
  }

  /** The backup of a storage holding two transcripts in one file: the header, then their two lines. */
  method BackupOfTwo(codec: Codec, now: int, stamp: string, t1: TranscriptEntry, t2: TranscriptEntry)
    returns (backup: Result<BackupResult, TranscriptError>)
    requires forall n: nat :: codec.is_json(codec.header(n, now))
    ensures backup.Ok? && backup.value.transcripts_backed_up == 2
    ensures |backup.value.lines| > 0 && codec.is_json(backup.value.lines[0])
    ensures Body(backup.value.lines) == Encoded(codec, [t1, t2])
  {
    VerifiedSpec(TranscriptIndex(map[], map[], now), {});
    var storage := new FileTranscriptStorage(DefaultFileStorageConfig(), codec, map[], None, now);
    var f := StoreIntoEmpty(storage, t1, now, stamp);
    StoreIntoFirst(storage, t2, f, now, stamp);
    DumpOne(codec, storage.files, f);
    backup := storage.BackupTranscripts([f], now);
  }

  /**
   * Restoring a backup into a fresh storage: when the codec reads back what
   * it wrote and the ids are distinct, every transcript is restored, none
   * is skipped, and the storage counts them all.
   */
  method RestoreIntoEmpty(codec: Codec, lines: seq<string>, ts: seq<TranscriptEntry>, now: int, stamp: string)
    returns (restore: Result<RestoreResult, TranscriptError>, total: nat)
    requires |lines| > 0 && codec.is_json(lines[0]) && Body(lines) == Encoded(codec, ts)
    requires forall i :: 0 <= i < |ts| ==> codec.decode(codec.encode(ts[i])) == Some(ts[i])
    requires forall i :: 0 <= i < |ts| ==> !IsBlank(codec.encode(ts[i]))
    requires NewIds(ts, {})
    ensures restore == Ok(RestoreResult(|ts|, 0)) && total == |ts|
  {
    VerifiedSpec(TranscriptIndex(map[], map[], now), {});
    var storage := new FileTranscriptStorage(DefaultFileStorageConfig(), codec, map[], None, now);
    RestoreOfBackup(codec, ts, {});
    assert storage.Consistent() && storage.index.transcript_locations.Keys == {};
    assert storage.stats.total_transcripts == 0;
    assert AllDecode(codec, Body(lines)) && NonBlank(Body(lines)) == |ts|;
    assert Skipped(codec, Body(lines), {}) == 0;
    restore := storage.RestoreTranscripts(lines, now, stamp);
    assert restore.Ok? && restore.value.duplicates_skipped == 0;
    total := storage.GetStorageStats().total_transcripts;
  }

  lemma DumpOne(codec: Codec, files: map<string, StorageFile>, f: string)
    requires f in files
    ensures Dump(codec, files, [f]) == Ok(Encoded(codec, files[f].transcripts))
  {
    var none: seq<string> := [];
    assert [f][..0] == none;
    var dumped: seq<string> := [];
    assert Dump(codec, files, [f]) == Ok(dumped + Encoded(codec, files[f].transcripts));
    assert dumped + Encoded(codec, files[f].transcripts) == Encoded(codec, files[f].transcripts);
  }
}
